/** Capturing a Service, redirecting it to the relay, and the relay slice itself. */
module Intercept {
  import opened Kube
  import opened Bindings
  import opened Safety
  import opened Writes
  import opened Api
  import opened StatusWriter
  import opened Validation
  import Restore

  const MAXIMUM_SLICE_COUNT := 64
  const MAXIMUM_ENDPOINT_COUNT := 4096

  // ----- capture -----

  function EndpointTotal(items: seq<NamedSlice>): nat {
    if items == [] then 0 else EndpointTotal(items[..|items| - 1]) + |items[|items| - 1].slice.endpoints|
  }

  lemma {:induction false} EndpointTotalPrefix(items: seq<NamedSlice>, i: nat)
    requires i <= |items|
    ensures EndpointTotal(items[..i]) <= EndpointTotal(items)
    decreases |items| - i
  {
    if i == |items| {
      assert items[..i] == items;
    } else {
      assert items[..i + 1][..i] == items[..i];
      EndpointTotalPrefix(items, i + 1);
    }
  }

  lemma {:induction false} EndpointTotalWithout(items: seq<NamedSlice>, i: nat)
    requires i < |items|
    ensures EndpointTotal(items) == EndpointTotal(items[..i] + items[i + 1..]) + |items[i].slice.endpoints|
    decreases |items|
  {
    var n := |items| - 1;
    if i < n {
      EndpointTotalWithout(items[..n], i);
      assert items[..n][..i] + items[..n][i + 1..] == (items[..i] + items[i + 1..])[..n - 1];
    } else {
      assert items[..i] + items[i + 1..] == items[..n];
    }
  }

  /** The limits do not depend on the order slices are listed in. */
  lemma {:induction false} SameTotal(a: seq<NamedSlice>, b: seq<NamedSlice>)
    requires DistinctNames(a) && DistinctNames(b) && forall x :: x in a <==> x in b
    ensures |a| == |b| && EndpointTotal(a) == EndpointTotal(b)
    decreases |a|
  {
    assert b != [] ==> b[0] in b && b[0] in a;
    if a != [] {
      var n := |a| - 1;
      assert a[n] in b;
      var i :| 0 <= i < |b| && b[i] == a[n];
      var rest := b[..i] + b[i + 1..];
      forall x ensures x in a[..n] <==> x in rest {
        assert x in a <==> x in b;
        assert x in b <==> x in rest || x == b[i];
      }
      SameTotal(a[..n], rest);
      EndpointTotalWithout(b, i);
    }
  }

  ghost predicate Suitable(s: Service, b: Binding) {
    s.clusterIP != "None" && !s.kind.ExternalNameService? && Resolvable(s.ports, b.spec.ports) && !Foreign(s, b.uid)
  }

  method CheckTarget(service: Service, b: Binding) returns (ok: bool)
    ensures ok <==> Suitable(service, b)
  {
    if service.clusterIP == "None" || service.kind.ExternalNameService? { return false; }
    var ports := ResolveServicePorts(service.ports, b.spec.ports);
    if ports.None? { return false; }
    ok := Lookup(service.annotations, UidKey) == "" || Lookup(service.annotations, UidKey) == b.uid;
  }

  /** A Service the operator agrees to intercept. */
  ghost predicate Capturable(b: Binding, c: Shared, t: string) {
    && t in c.services && Suitable(c.services[t], b)
    && forall items :: Listing(items, c.slices, t) ==> WithinLimits(items)
  }

  predicate WithinLimits(items: seq<NamedSlice>) {
    |items| <= 64 && EndpointTotal(items) <= 4096
  }

  lemma AnyListingDecides(items: seq<NamedSlice>, slices: map<string, Slice>, t: string)
    requires Listing(items, slices, t)
    ensures forall other :: Listing(other, slices, t) ==> (WithinLimits(other) <==> WithinLimits(items))
  {
    forall other | Listing(other, slices, t) ensures WithinLimits(other) <==> WithinLimits(items) {
      forall x ensures x in items <==> x in other {
        if x in items { SameEntry(items, other, slices, t, x); }
        if x in other { SameEntry(other, items, slices, t, x); }
      }
      SameTotal(items, other);
    }
  }

  lemma SameEntry(items: seq<NamedSlice>, other: seq<NamedSlice>, slices: map<string, Slice>, t: string, x: NamedSlice)
    requires Listing(items, slices, t) && Listing(other, slices, t) && x in items
    ensures x in other
  {
    var i :| 0 <= i < |items| && items[i] == x;
    var j :| 0 <= j < |other| && other[j].name == items[i].name;
    assert other[j] == x;
  }

  method CollectSlices(items: seq<NamedSlice>) returns (r: Option<seq<NamedSlice>>)
    ensures r == if EndpointTotal(items) <= 4096 then Some(items) else None
  {
    var collected: seq<NamedSlice> := [];
    var endpointCount := 0;
    for i := 0 to |items|
      invariant collected == items[..i] && endpointCount == EndpointTotal(items[..i])
      invariant endpointCount <= MAXIMUM_ENDPOINT_COUNT
    {
      assert items[..i + 1][..i] == items[..i];
      endpointCount := endpointCount + |items[i].slice.endpoints|;
      if endpointCount > MAXIMUM_ENDPOINT_COUNT {
        EndpointTotalPrefix(items, i + 1);
        return None;
      }
      collected := collected + [items[i]];
    }
    assert items[..|items|] == items;
    r := Some(collected);
  }

  /** A snapshot of Service t records the managed slice of a binding, be it another one, exactly if that slice is
      there and labelled with t at that moment. */
  lemma CaptureRecords(who: Subject, c: Shared, t: string, snapshot: Snapshot)
    requires Listing(snapshot.slices, c.slices, t)
    ensures Records(who, snapshot) <==> OwnSlice(who, c) && Labelled(c.slices[ManagedSlice(who)], t)
  {}

  lemma CaptureIsFaithful(c: Shared, t: string, snapshot: Snapshot)
    requires t in c.services && snapshot.serviceName == t
    requires snapshot.serviceUid == c.services[t].uid && snapshot.selector == c.services[t].selector
    requires Listing(snapshot.slices, c.slices, t) && snapshot.hadSlices == (|snapshot.slices| > 0)
    requires snapshot.hadEndpoints == (t in c.endpoints) && (t in c.endpoints ==> snapshot.subsets == c.endpoints[t])
    ensures Faithful(snapshot, c, t) && DistinctNames(snapshot.slices)
  {}

  /** Every part of the snapshot was read since that position of the run: from a suitable Service, a listing within the
      limits, and the Endpoints or their absence. */
  ghost predicate CapturedSince(who: Subject, b: Binding, start: World, history: seq<Step>, from: nat,
                                snapshot: Snapshot)
  {
    var t := who.service;
    && (exists read ::
          && ServiceHeld(start, history, from, t, read) && Suitable(read, b)
          && read.uid == snapshot.serviceUid && read.selector == snapshot.selector)
    && Listed(start, history, from, snapshot.slices, t) && WithinLimits(snapshot.slices)
    && snapshot.hadSlices == (snapshot.slices != [])
    && if snapshot.hadEndpoints then EndpointsHeld(start, history, from, t, snapshot.subsets)
       else EndpointsGone(start, history, from, t)
  }

  lemma CapturedStays(who: Subject, b: Binding, start: World, history: seq<Step>, history': seq<Step>, from: nat,
                      snapshot: Snapshot)
    requires history <= history' && CapturedSince(who, b, start, history, from, snapshot)
    ensures CapturedSince(who, b, start, history', from, snapshot)
  {
    hide ServiceHeld, Listed, EndpointsHeld, EndpointsGone, Suitable;
    SeenStays(start, history, from, history', from);
  }

  method CaptureService(client: ApiServer, b: Binding) returns (r: Result<Snapshot>)
    requires Known(client, b) && b.finalizer && Intercepting(client.who.mode)
    requires !OwnSlice(client.who, client.world.shared)
    modifies client
    ensures Known(client, b) && old(client.history) <= client.history
    ensures client.Alone() ==> client.world.shared == old(client.world).shared
    ensures !OwnSlice(client.who, client.world.shared)
    ensures r.Ok? ==> r.value.serviceName == client.who.service && !Records(client.who, r.value)
    ensures r.Ok? ==> CapturedSince(client.who, b, client.start, client.history, |old(client.history)|, r.value)
    ensures r.Ok? && client.Alone() ==>
              Faithful(r.value, client.world.shared, client.who.service) && DistinctNames(r.value.slices)
    ensures client.quiet ==>
              && client.world.binding == old(client.world).binding
              && (Capturable(b, old(client.world).shared, client.who.service) <==> r.Ok?)
              && (r.Err? ==> client.world == old(client.world))
              && (r.Err? ==> r.error == if client.who.service in client.world.shared.services then Permanent
                                        else NotFound)
  {
    hide Inv, Guarantee, Outside, Drifts, UserStep, SnapshotSafe, Coherent, Faithful, Listing, Records, Suitable,
         EndpointTotal, Chain, ServiceHeld, Listed, EndpointsHeld, EndpointsGone;
    var target := b.spec.target.value.name;
    var service := client.GetService(target);
    if service.Err? { return Err(service.error); }
    ghost var got := client.history;
    SeenNow(client.start, client.history, client.world, |old(client.history)|);
    var suitable := CheckTarget(service.value, b);
    if !suitable { return Err(Permanent); }
    var listed := client.ListSlices(target);
    if listed.Err? { return Err(listed.error); }
    ghost var found := client.history;
    SeenNow(client.start, client.history, client.world, |old(client.history)|);
    AnyListingDecides(listed.value, client.world.shared.slices, target);
    if |listed.value| > MAXIMUM_SLICE_COUNT { return Err(Permanent); }
    var slices := CollectSlices(listed.value);
    if slices.None? { return Err(Permanent); }
    var snapshot := Snapshot(target, service.value.uid, service.value.selector, slices.value, |slices.value| > 0, [],
                             false);
    ghost var seen := client.world.shared;
    var legacy := client.GetEndpoints(target);
    if legacy.Ok? {
      snapshot := snapshot.(hadEndpoints := true, subsets := legacy.value);
    } else if !legacy.error.NotFound? {
      return Err(legacy.error);
    }
    SeenNow(client.start, client.history, client.world, |old(client.history)|);
    SeenStays(client.start, got, |old(client.history)|, client.history, |old(client.history)|);
    SeenStays(client.start, found, |old(client.history)|, client.history, |old(client.history)|);
    CaptureRecords(client.who, seen, target, snapshot);
    if client.Alone() { CaptureIsFaithful(client.world.shared, target, snapshot); }
    r := Ok(snapshot);
  }

  // ----- the relay slice -----

  function RelayPortOf(mapping: TrafficPort): EndpointPort
    requires mapping.relayPort.Some?
  {
    EndpointPort(mapping.name, CoreProtocol(mapping.protocol), mapping.relayPort.value)
  }

  /** The slice that sends a Service's traffic to the relay: one ready endpoint, the relay ports in
      mapping order, the binding as controller and the Service as further owner. */
  function DesiredRelaySlice(b: Binding, serviceName: string, serviceUid: string, ports: seq<TrafficPort>): Slice
    requires b.spec.relay.Some? && forall i :: 0 <= i < |ports| ==> ports[i].relayPort.Some?
  {
    Slice(
      map[ServiceNameLabel := serviceName, ManagedBy := "kubeloop-operator", BindingLabel := LabelValue(b.uid)],
      map[NameKey := b.name, UidKey := b.uid, ModeKey := ModeText(b.spec.mode)],
      [OwnerRef(b.uid, true), OwnerRef(serviceUid, false)],
      if b.spec.relay.value.ipv6 then IPv6 else IPv4,
      [Endpoint([b.spec.relay.value.address], true)],
      seq(|ports|, i requires 0 <= i < |ports| => RelayPortOf(ports[i])))
  }

  method BuildRelaySlice(b: Binding, serviceName: string, serviceUid: string, ports: seq<TrafficPort>)
    returns (s: Slice)
    requires b.spec.relay.Some? && forall i :: 0 <= i < |ports| ==> ports[i].relayPort.Some?
    ensures s == DesiredRelaySlice(b, serviceName, serviceUid, ports)
  {
    var endpointPorts: seq<EndpointPort> := [];
    for i := 0 to |ports|
      invariant endpointPorts == seq(i, k requires 0 <= k < i => RelayPortOf(ports[k]))
    {
      var protocol := if ports[i].protocol.UdpProtocol? then UDP else TCP;
      endpointPorts := endpointPorts + [EndpointPort(ports[i].name, protocol, ports[i].relayPort.value)];
    }
    var addressType := IPv4;
    if b.spec.relay.value.ipv6 { addressType := IPv6; }
    var labels := map[ServiceNameLabel := serviceName];
    labels := labels[ManagedBy := "kubeloop-operator"][BindingLabel := LabelValue(b.uid)];
    var annotations: Strings := map[NameKey := b.name, UidKey := b.uid, ModeKey := ModeText(b.spec.mode)];
    var owners := [OwnerRef(b.uid, true)];
    owners := owners + [OwnerRef(serviceUid, false)];
    s := Slice(labels, annotations, owners, addressType, [Endpoint([b.spec.relay.value.address], true)], endpointPorts);
  }

  /** Traffic for a Service that arrives at this slice goes to the relay and nowhere else: one ready endpoint with the
      relay's address, and for every mapping, in order, the relay port under the name of the Service port with the
      mapping's number and transport. */
  ghost predicate SendsToRelay(b: Binding, s: Slice, service: Service)
    requires RelayReady(b.spec)
  {
    && |s.endpoints| == 1 && s.endpoints[0].ready && s.endpoints[0].addresses == [b.spec.relay.value.address]
    && (s.addressType.IPv6? <==> b.spec.relay.value.ipv6)
    && |s.ports| == |b.spec.ports|
    && forall i :: 0 <= i < |b.spec.ports| ==>
         && s.ports[i].port == b.spec.ports[i].relayPort.value
         && (s.ports[i].protocol.UDP? <==> b.spec.ports[i].protocol.UdpProtocol?)
         && exists k :: 0 <= k < |service.ports| && service.ports[k].name == s.ports[i].name &&
                        service.ports[k].port == b.spec.ports[i].targetPort &&
                        service.ports[k].protocol == s.ports[i].protocol
  }

  lemma RelaySliceSends(b: Binding, service: Service, serviceName: string)
    requires RelayReady(b.spec) && Resolvable(service.ports, b.spec.ports)
    ensures SendsToRelay(b, DesiredRelaySlice(b, serviceName, service.uid, Resolved(service.ports, b.spec.ports)),
                         service)
  {
    var s := DesiredRelaySlice(b, serviceName, service.uid, Resolved(service.ports, b.spec.ports));
    forall i | 0 <= i < |b.spec.ports|
      ensures exists k :: 0 <= k < |service.ports| && service.ports[k].name == s.ports[i].name &&
                        service.ports[k].port == b.spec.ports[i].targetPort &&
                        service.ports[k].protocol == s.ports[i].protocol
    {
      var found := FindPort(service.ports, b.spec.ports[i]);
      var k :| 0 <= k < |service.ports| && service.ports[k] == found.value;
    }
  }

  lemma DesiredRelaySliceIsOwn(who: Subject, b: Binding, serviceUid: string, ports: seq<TrafficPort>)
    requires WellFormed(who, b) && b.spec.relay.Some? && forall i :: 0 <= i < |ports| ==> ports[i].relayPort.Some?
    ensures Relaying(who, DesiredRelaySlice(b, who.service, serviceUid, ports))
  {
    var s := DesiredRelaySlice(b, who.service, serviceUid, ports);
    assert s.owners[0].controller && s.owners[0].uid == who.uid;
  }

  /** The managed slice is absent, the binding's own, or goes with the Service's other slices. */
  predicate SlotUsable(who: Subject, c: Shared) {
    ManagedSlice(who) in c.slices ==>
      RelaySlotFree(who, c) || (!OwnSlice(who, c) && Labelled(c.slices[ManagedSlice(who)], who.service))
  }

  /** The managed slice is absent or the binding's own. */
  predicate RelaySlotFree(who: Subject, c: Shared) {
    ManagedSlice(who) in c.slices ==>
      OwnSlice(who, c) && ControlledBy(c.slices[ManagedSlice(who)].owners, who.uid)
  }

  /** Since that position of the run the managed slice was the relay's, or was patched to be. */
  ghost predicate SliceRelayed(who: Subject, start: World, history: seq<Step>, from: nat, relay: Slice) {
    || SliceHeld(start, history, from, ManagedSlice(who), relay)
    || exists read :: SlicePatched(history, from, ManagedSlice(who), read, relay)
  }

  method ReconcileRelaySlice(client: ApiServer, b: Binding, service: Service, ports: seq<TrafficPort>)
    returns (r: Result<()>)
    requires client.Valid() && Licensed(client.who, b, client.world)
    requires b.spec.relay.Some? && forall i :: 0 <= i < |ports| ==> ports[i].relayPort.Some?
    modifies client
    ensures client.Valid() && old(client.history) <= client.history && Licensed(client.who, b, client.world)
    ensures r.Ok? ==>
              SliceRelayed(client.who, client.start, client.history, |old(client.history)|,
                           DesiredRelaySlice(b, client.who.service, service.uid, ports))
    ensures r.Ok? && client.Alone() ==>
              client.world.shared ==
              old(client.world).shared.(slices := old(client.world).shared.slices[
                ManagedSlice(client.who) := DesiredRelaySlice(b, client.who.service, service.uid, ports)])
    ensures r.Err? ==> r.error.NotFound? || r.error.Permanent? || r.error.Unavailable?
    ensures r.Err? && r.error.NotFound? ==> ManagedSlice(client.who) !in client.world.shared.slices
    ensures r.Err? && r.error.Permanent? ==> !RelaySlotFree(client.who, client.world.shared)
    ensures client.quiet && ManagedSlice(client.who) in old(client.world).shared.slices &&
            old(client.world).shared.slices[ManagedSlice(client.who)] ==
            DesiredRelaySlice(b, client.who.service, service.uid, ports) ==>
              client.history == old(client.history)
    ensures client.quiet ==>
              && client.world.binding == old(client.world).binding
              && (r.Ok? <==> RelaySlotFree(client.who, old(client.world).shared))
              && (r.Err? ==> client.world == old(client.world) && r.error.Permanent?)
  {
    hide Inv, Guarantee, Outside, Drifts, SliceRelayed, SlicePatched, Chain, DesiredRelaySlice, StepOk,
         DeletionsJustified;
    var desired := BuildRelaySlice(b, ServiceOf(b.spec), service.uid, ports);
    DesiredRelaySliceIsOwn(client.who, b, service.uid, ports);
    var name := ManagedSliceName(b.uid);
    var current := client.GetSlice(name);
    if current.Err? && current.error.NotFound? {
      var created := client.CreateSlice(b, name, desired);
      if created.Ok? {
        RelayedNow(client, |old(client.history)|, desired);
        return Ok(());
      }
      if !created.error.AlreadyExists? { return created; }
      current := client.GetSlice(name);
    }
    if current.Err? { return Err(current.error); }
    if !(Lookup(current.value.annotations, NameKey) == b.name && Lookup(current.value.annotations, UidKey) == b.uid)
       || !ControlledBy(current.value.owners, b.uid)
    {
      return Err(Permanent);
    }
    if current.value == desired {
      RelayedNow(client, |old(client.history)|, desired);
      assert client.Alone() ==> client.world.shared.slices == client.world.shared.slices[name := desired];
      return Ok(());
    }
    ghost var read := client.history;
    r := client.PatchSlice(b, name, current.value, desired);
    if r.Ok? {
      RelayPatched(client.who, client.start, client.history, |read|, |old(client.history)|, current.value, desired);
    }
  }

  lemma RelayedNow(client: ApiServer, from: nat, relay: Slice)
    requires client.Valid() && from <= |client.history| && ManagedSlice(client.who) in client.world.shared.slices
    requires client.world.shared.slices[ManagedSlice(client.who)] == relay
    ensures SliceRelayed(client.who, client.start, client.history, from, relay)
  {
    SeenNow(client.start, client.history, client.world, from);
  }

  lemma RelayPatched(who: Subject, start: World, history: seq<Step>, at: nat, from: nat, read: Slice, relay: Slice)
    requires from <= at && SlicePatched(history, at, ManagedSlice(who), read, relay)
    ensures SliceRelayed(who, start, history, from, relay)
  {
    PutStays(history, at, history, from);
  }

  lemma RelayedStays(who: Subject, start: World, history: seq<Step>, from: nat, history': seq<Step>, from': nat,
                     relay: Slice)
    requires history <= history' && from' <= from && SliceRelayed(who, start, history, from, relay)
    ensures SliceRelayed(who, start, history', from', relay)
  {
    SeenStays(start, history, from, history', from');
    PutStays(history, from, history', from');
  }

  // ----- the interception -----

  /** The cluster with Service t redirected to the relay: selector and Endpoints gone, and of its slices
      only the managed one left. */
  function Redirected(b: Binding, who: Subject, c: Shared): Shared
    requires who.service in c.services && RelayReady(b.spec)
    requires Resolvable(c.services[who.service].ports, b.spec.ports)
  {
    var t, s := who.service, c.services[who.service];
    Shared(
      c.services[t := Hijacked(s, who)],
      OnlyRelayed(who, c.slices, DesiredRelaySlice(b, t, s.uid, Resolved(s.ports, b.spec.ports))),
      c.endpoints - {t})
  }

  /** All slices of other Services, and the relay's. */
  function OnlyRelayed(who: Subject, slices: map<string, Slice>, relay: Slice): map<string, Slice> {
    (map n | n in slices && !Labelled(slices[n], who.service) :: slices[n])[ManagedSlice(who) := relay]
  }

  lemma HijackTwice(s: Service, who: Subject)
    ensures Hijacked(Hijacked(s, who), who) == Hijacked(s, who)
  {
    assert Claim(Claim(s.annotations, who), who) == Claim(s.annotations, who);
  }

  lemma OnlyRelayedFromAnywhere(who: Subject, base: map<string, Slice>, now: map<string, Slice>, relay: Slice)
    requires SlicesPart(who, base, now)
    ensures OnlyRelayed(who, now, relay) == OnlyRelayed(who, base, relay)
  {}

  /** Redirecting from any half-done state gives the same cluster as redirecting the untouched one. */
  lemma RedirectedFromAnywhere(b: Binding, who: Subject, base: Shared, c: Shared)
    requires PartlyHijacked(who, base, c) && RelayReady(b.spec)
    requires Resolvable(base.services[who.service].ports, b.spec.ports)
    ensures Redirected(b, who, c) == Redirected(b, who, base)
  {
    var s := base.services[who.service];
    HijackTwice(s, who);
    OnlyRelayedFromAnywhere(who, base.slices, c.slices,
                            DesiredRelaySlice(b, who.service, s.uid, Resolved(s.ports, b.spec.ports)));
    assert c.services[who.service := Hijacked(s, who)] == base.services[who.service := Hijacked(s, who)];
    assert c.endpoints - {who.service} == base.endpoints - {who.service};
  }

  /** A redirected cluster is itself a half-done state, so a second interception changes nothing. */
  lemma RedirectedIsPartlyHijacked(b: Binding, who: Subject, base: Shared)
    requires WellFormed(who, b) && RelayReady(b.spec)
    requires who.service in base.services && Resolvable(base.services[who.service].ports, b.spec.ports)
    requires ManagedSlice(who) !in base.slices
    ensures PartlyHijacked(who, base, Redirected(b, who, base))
    ensures var c := Redirected(b, who, base);
            && c.services[who.service].selector == map[] && who.service !in c.endpoints
            && (forall n :: n in c.slices && Labelled(c.slices[n], who.service) <==> n == ManagedSlice(who))
            && SendsToRelay(b, c.slices[ManagedSlice(who)], base.services[who.service])
  {
    RelaySliceSends(b, base.services[who.service], who.service);
    var ports := Resolved(base.services[who.service].ports, b.spec.ports);
    DesiredRelaySliceIsOwn(who, b, base.services[who.service].uid, ports);
  }

  lemma OnlyRelayedTwice(who: Subject, slices: map<string, Slice>, relay: Slice)
    requires Labelled(relay, who.service)
    ensures OnlyRelayed(who, OnlyRelayed(who, slices, relay), relay) == OnlyRelayed(who, slices, relay)
  {}

  /** Whatever cluster is redirected, a second redirection changes nothing. */
  lemma RedirectTwice(b: Binding, who: Subject, c: Shared)
    requires WellFormed(who, b) && RelayReady(b.spec)
    requires who.service in c.services && Resolvable(c.services[who.service].ports, b.spec.ports)
    ensures var once := Redirected(b, who, c);
            who.service in once.services && Resolvable(once.services[who.service].ports, b.spec.ports) &&
            Redirected(b, who, once) == once
  {
    var s, once := c.services[who.service], Redirected(b, who, c);
    HijackTwice(s, who);
    DesiredRelaySliceIsOwn(who, b, s.uid, Resolved(s.ports, b.spec.ports));
    OnlyRelayedTwice(who, c.slices, DesiredRelaySlice(b, who.service, s.uid, Resolved(s.ports, b.spec.ports)));
    assert once.services[who.service := Hijacked(s, who)] == once.services;
    assert once.endpoints - {who.service} == once.endpoints;
  }

  /** Exactly the Service's slices other than the owned managed one are gone. */
  predicate Stripped(who: Subject, was: map<string, Slice>, now: map<string, Slice>) {
    && (forall n :: n in now ==>
          n in was && now[n] == was[n] &&
          (Labelled(was[n], who.service) ==> n == ManagedSlice(who) && Owned(was[n].annotations, who)))
    && (forall n :: n in was && !Labelled(was[n], who.service) ==> n in now)
  }

  lemma StrippedSlot(who: Subject, was: Shared, now: Shared)
    requires Stripped(who, was.slices, now.slices)
    requires OwnSlice(who, was) ==> ManagedSlice(who) in now.slices && RelaySlotFree(who, was)
    ensures SlotUsable(who, was) <==> RelaySlotFree(who, now)
    ensures !SlotUsable(who, was) ==>
              !SlotUsable(who, now) && forall n :: n in now.slices ==> !Labelled(now.slices[n], who.service)
  {}

  lemma StrippedThenRelayed(who: Subject, was: map<string, Slice>, now: map<string, Slice>, relay: Slice)
    requires Stripped(who, was, now)
    ensures now[ManagedSlice(who) := relay] == OnlyRelayed(who, was, relay)
  {}

  /** The first i listed slices are gone, except the managed one, and nothing else is. */
  predicate RemovedUpTo(who: Subject, items: seq<NamedSlice>, was: Shared, now: Shared, i: nat)
    requires i <= |items|
  {
    && now == was.(slices := now.slices)
    && (forall n :: n in now.slices ==> n in was.slices && now.slices[n] == was.slices[n])
    && (forall n :: n in was.slices && !Labelled(was.slices[n], who.service) ==> n in now.slices)
    && (OwnSlice(who, was) ==> ManagedSlice(who) in now.slices)
    && forall j :: 0 <= j < i && !(items[j].name == ManagedSlice(who) && Owned(items[j].slice.annotations, who)) ==>
         items[j].name !in now.slices
  }

  lemma OneMoreRemoved(who: Subject, items: seq<NamedSlice>, was: Shared, now: Shared, i: nat)
    requires i < |items| && RemovedUpTo(who, items, was, now, i) && Listing(items, was.slices, who.service)
    requires !(items[i].name == ManagedSlice(who) && Owned(items[i].slice.annotations, who))
    ensures RemovedUpTo(who, items, was, now.(slices := now.slices - {items[i].name}), i + 1)
  {}

  lemma NothingRemoved(who: Subject, items: seq<NamedSlice>, was: Shared)
    ensures RemovedUpTo(who, items, was, was, 0)
  {}

  lemma ManagedSkipped(who: Subject, items: seq<NamedSlice>, was: Shared, now: Shared, i: nat)
    requires i < |items| && RemovedUpTo(who, items, was, now, i)
    requires items[i].name == ManagedSlice(who) && Owned(items[i].slice.annotations, who)
    ensures RemovedUpTo(who, items, was, now, i + 1)
  {}

  lemma ListedSlice(who: Subject, base: map<string, Slice>, was: map<string, Slice>, items: seq<NamedSlice>, i: nat)
    requires i < |items| && Listing(items, was, who.service)
    requires SlicesPart(who, base, was) && ManagedSlice(who) !in base
    ensures items[i].name in base ==> Labelled(base[items[i].name], who.service)
  {}

  lemma AllRemoved(who: Subject, items: seq<NamedSlice>, was: Shared, now: Shared)
    requires RemovedUpTo(who, items, was, now, |items|) && Listing(items, was.slices, who.service)
    ensures Stripped(who, was.slices, now.slices) && now == was.(slices := now.slices)
    ensures OwnSlice(who, was) ==> ManagedSlice(who) in now.slices
  {}

  /** All of them carry the Service's label or did so earlier. */
  ghost predicate AllLabelled(client: ApiServer, items: seq<NamedSlice>)
    reads client
  {
    AllRecorded(client.who, items, client.history, client.world)
  }

  ghost predicate AllRecorded(who: Subject, items: seq<NamedSlice>, history: seq<Step>, w: World) {
    forall i :: 0 <= i < |items| ==> LabelledIn(who, w, items[i].name) || LabelledWithin(who, history, items[i].name)
  }

  lemma ListedAreLabelled(client: ApiServer, items: seq<NamedSlice>)
    requires Listing(items, client.world.shared.slices, client.who.service)
    ensures AllLabelled(client, items)
  {}

  lemma AllStayRecorded(client: ApiServer, items: seq<NamedSlice>, history: seq<Step>, w: World)
    requires client.Valid() && Chain(client.start, history, w) && history <= client.history
    requires AllRecorded(client.who, items, history, w)
    ensures AllLabelled(client, items)
  {
    forall i | 0 <= i < |items|
      ensures LabelledIn(client.who, client.world, items[i].name) ||
              LabelledWithin(client.who, client.history, items[i].name)
    {
      LabelledStays(client.who, client.start, history, w, client.history, client.world, items[i].name);
    }
  }

  predicate IsMine(who: Subject, item: NamedSlice) {
    item.name == ManagedSlice(who) && Owned(item.slice.annotations, who)
  }

  /** The slice has been absent at some moment since, or it is the owned managed one. */
  ghost predicate GoneOrMine(who: Subject, start: World, history: seq<Step>, from: nat, item: NamedSlice) {
    SliceGone(start, history, from, item.name) || IsMine(who, item)
  }

  /** Since that position of the run the Service's slices have been listed, and the first i of the listing have been
      absent, but for the owned managed one. */
  ghost predicate RemovedSoFar(who: Subject, start: World, history: seq<Step>, from: nat, items: seq<NamedSlice>,
                               i: nat)
    requires i <= |items|
  {
    && Listed(start, history, from, items, who.service)
    && forall k :: 0 <= k < i ==> GoneOrMine(who, start, history, from, items[k])
  }

  /** All of the listing have. */
  ghost predicate SlicesRemoved(who: Subject, start: World, history: seq<Step>, from: nat) {
    exists items :: RemovedSoFar(who, start, history, from, items, |items|)
  }

  lemma GoneNow(client: ApiServer, from: nat, item: NamedSlice)
    requires client.Valid() && from <= |client.history| && item.name !in client.world.shared.slices
    ensures GoneOrMine(client.who, client.start, client.history, from, item)
  {
    SeenNow(client.start, client.history, client.world, from);
  }

  lemma ListedNow(client: ApiServer, from: nat, items: seq<NamedSlice>)
    requires client.Valid() && from <= |client.history|
    requires Listing(items, client.world.shared.slices, client.who.service)
    ensures RemovedSoFar(client.who, client.start, client.history, from, items, 0)
  {
    SeenNow(client.start, client.history, client.world, from);
  }

  lemma OneMoreGone(who: Subject, start: World, history: seq<Step>, history': seq<Step>, from: nat,
                    items: seq<NamedSlice>, i: nat)
    requires i < |items| && from <= |history| && history <= history'
    requires RemovedSoFar(who, start, history, from, items, i)
    requires GoneOrMine(who, start, history', |history|, items[i])
    ensures RemovedSoFar(who, start, history', from, items, i + 1)
  {
    SeenStays(start, history, from, history', from);
    SeenStays(start, history', |history|, history', from);
  }

  lemma AllGone(who: Subject, start: World, history: seq<Step>, from: nat, items: seq<NamedSlice>)
    requires RemovedSoFar(who, start, history, from, items, |items|)
    ensures SlicesRemoved(who, start, history, from)
  {}

  lemma RemovedStays(who: Subject, start: World, history: seq<Step>, history': seq<Step>, from: nat)
    requires history <= history' && SlicesRemoved(who, start, history, from)
    ensures SlicesRemoved(who, start, history', from)
  {
    var items :| RemovedSoFar(who, start, history, from, items, |items|);
    SeenStays(start, history, from, history', from);
    assert RemovedSoFar(who, start, history', from, items, |items|);
  }

  /** Slice i of the listing goes, unless it is the owned managed one. */
  method RemoveListed(client: ApiServer, b: Binding, items: seq<NamedSlice>, i: nat, ghost was: Shared)
    returns (r: Result<()>)
    requires client.Valid() && Licensed(client.who, b, client.world) && b.name == client.who.name &&
             b.uid == client.who.uid
    requires Intercepting(client.who.mode) && NotForeign(client.who, client.world.shared)
    requires i < |items| && AllLabelled(client, items)
    requires client.exclusive ==>
               SlicesPart(client.who, client.base.slices, was.slices) && ManagedSlice(client.who) !in client.base.slices
    requires client.Alone() ==>
               && Listing(items, was.slices, client.who.service)
               && RemovedUpTo(client.who, items, was, client.world.shared, i)
    modifies client
    ensures client.Valid() && old(client.history) <= client.history && AllLabelled(client, items)
    ensures Licensed(client.who, b, client.world) && NotForeign(client.who, client.world.shared)
    ensures r.Ok? && client.Alone() ==> RemovedUpTo(client.who, items, was, client.world.shared, i + 1)
    ensures r.Ok? ==> GoneOrMine(client.who, client.start, client.history, |old(client.history)|, items[i])
    ensures client.quiet && IsMine(client.who, items[i]) ==>
              client.history == old(client.history) && client.world == old(client.world)
    ensures client.quiet ==> r.Ok? && client.world.binding == old(client.world).binding
  {
    assert Chain(client.start, client.history, client.world) && client.WasLabelled(items[i].name);
    assert AllRecorded(client.who, items, client.history, client.world);
    ghost var mine := items[i].name == ManagedSlice(client.who) && Owned(items[i].slice.annotations, client.who);
    assert mine <==> items[i].name == ManagedSliceName(b.uid) &&
                     Lookup(items[i].slice.annotations, NameKey) == b.name &&
                     Lookup(items[i].slice.annotations, UidKey) == b.uid;
    hide *;
    if items[i].name == ManagedSliceName(b.uid) &&
       Lookup(items[i].slice.annotations, NameKey) == b.name && Lookup(items[i].slice.annotations, UidKey) == b.uid
    {
      if client.Alone() { ManagedSkipped(client.who, items, was, client.world.shared, i); }
      return Ok(());
    }
    ghost var now, record, before := client.world.shared, client.history, client.world;
    if client.exclusive { ListedSlice(client.who, client.base.slices, was.slices, items, i); }
    r := client.DeleteSlice(b, items[i].name);
    AllStayRecorded(client, items, record, before);
    if r.Err? && !r.error.NotFound? { return; }
    GoneNow(client, |record|, items[i]);
    if client.Alone() { OneMoreRemoved(client.who, items, was, now, i); }
    r := Ok(());
  }

  /** The Service has no other slice. */
  ghost predicate AllMine(who: Subject, slices: map<string, Slice>) {
    forall n :: n in slices && Labelled(slices[n], who.service) ==> IsMine(who, NamedSlice(n, slices[n]))
  }

  lemma AllListedMine(who: Subject, items: seq<NamedSlice>, slices: map<string, Slice>)
    requires Listing(items, slices, who.service) && AllMine(who, slices)
    ensures forall i :: 0 <= i < |items| ==> IsMine(who, items[i])
  {
    forall i | 0 <= i < |items| ensures IsMine(who, items[i]) {
      assert items[i] == NamedSlice(items[i].name, slices[items[i].name]);
    }
  }

  lemma NamesAgree(client: ApiServer, b: Binding)
    requires Licensed(client.who, b, client.world)
    ensures b.name == client.who.name && b.uid == client.who.uid
    ensures Shaped(b.spec) && ServiceOf(b.spec) == client.who.service
    ensures client.Alone() <==> client.exclusive || client.quiet
  {}

  lemma LicenseStays(who: Subject, exclusive: bool, b: Binding, w: World, w': World)
    requires Idle(who, exclusive, w, w') && Licensed(who, b, w)
    ensures Licensed(who, b, w') && (NotForeign(who, w.shared) ==> NotForeign(who, w'.shared))
    ensures exclusive ==> w'.shared == w.shared
  {}

  /** Deleting the Service's other slices, one by one. */
  method RemoveSlices(client: ApiServer, b: Binding) returns (r: Result<()>)
    requires client.Valid() && Licensed(client.who, b, client.world)
    requires Intercepting(client.who.mode) && NotForeign(client.who, client.world.shared)
    requires client.exclusive ==>
               && SlicesPart(client.who, client.base.slices, client.world.shared.slices)
               && ManagedSlice(client.who) !in client.base.slices
    modifies client
    ensures client.Valid() && old(client.history) <= client.history
    ensures Licensed(client.who, b, client.world) && NotForeign(client.who, client.world.shared)
    ensures client.Alone() && r.Ok? ==>
              && client.world.shared == old(client.world).shared.(slices := client.world.shared.slices)
              && Stripped(client.who, old(client.world).shared.slices, client.world.shared.slices)
              && (OwnSlice(client.who, old(client.world).shared) ==>
                    ManagedSlice(client.who) in client.world.shared.slices)
    ensures r.Ok? ==> SlicesRemoved(client.who, client.start, client.history, |old(client.history)|)
    ensures client.quiet && AllMine(client.who, old(client.world).shared.slices) ==>
              client.history == old(client.history) && client.world == old(client.world)
    ensures client.quiet ==> r.Ok? && client.world.binding == old(client.world).binding
  {
    hide *;
    NamesAgree(client, b);
    var name := ServiceOf(b.spec);
    ghost var start := client.world;
    var listed := client.ListSlices(name);
    LicenseStays(client.who, client.exclusive, b, start, client.world);
    if listed.Err? { return Err(listed.error); }
    var items := listed.value;
    ghost var was := client.world.shared;
    NothingRemoved(client.who, items, was);
    ghost var allMine := AllMine(client.who, was.slices);
    if allMine { AllListedMine(client.who, items, was.slices); }
    ListedAreLabelled(client, items);
    ListedNow(client, |old(client.history)|, items);
    for i := 0 to |items|
      invariant client.Valid() && old(client.history) <= client.history && AllLabelled(client, items)
      invariant Licensed(client.who, b, client.world) && NotForeign(client.who, client.world.shared)
      invariant client.quiet ==> client.world.binding == old(client.world).binding
      invariant client.Alone() ==> RemovedUpTo(client.who, items, was, client.world.shared, i)
      invariant client.quiet && allMine ==> client.history == old(client.history) && client.world == old(client.world)
      invariant RemovedSoFar(client.who, client.start, client.history, |old(client.history)|, items, i)
    {
      ghost var before := client.history;
      r := RemoveListed(client, b, items, i, was);
      if r.Err? { return; }
      OneMoreGone(client.who, client.start, before, client.history, |old(client.history)|, items, i);
    }
    AllGone(client.who, client.start, client.history, |old(client.history)|, items);
    if client.Alone() { AllRemoved(client.who, items, was, client.world.shared); }
    r := Ok(());
  }

  /** The claim on the Service: annotations on, selector off. The patch is skipped if nothing changes. */
  method ClaimService(client: ApiServer, b: Binding, service: Service) returns (r: Result<()>)
    requires Known(client, b) && MayMark(client.who, b) && Intercepting(client.who.mode)
    requires client.who.service in client.world.shared.services &&
             client.world.shared.services[client.who.service] == service
    requires service.uid == b.status.snapshot.value.serviceUid && !Foreign(service, client.who.uid)
    requires client.exclusive ==>
               Pristine(client.who, client.base) && PartlyHijacked(client.who, client.base, client.world.shared)
    modifies client
    ensures Known(client, b) && old(client.history) <= client.history
    ensures r.Ok? ==> NotForeign(client.who, client.world.shared)
    ensures r.Ok? ==>
              service == Hijacked(service, client.who) ||
              ServicePatched(client.history, |old(client.history)|, client.who.service, service,
                             Hijacked(service, client.who))
    ensures r.Ok? && client.Alone() ==>
              client.world.shared ==
              old(client.world).shared.(services :=
                old(client.world).shared.services[client.who.service := Hijacked(service, client.who)])
    ensures client.quiet && service == Hijacked(service, client.who) ==>
              client.history == old(client.history) && client.world == old(client.world)
    ensures client.quiet ==> r.Ok? && client.world.binding == old(client.world).binding
  {
    hide Inv, Guarantee, Outside, Drifts, Faithful, Pristine, SlicesPart, EndpointsPart;
    var annotations := service.annotations[NameKey := b.name][UidKey := b.uid][ModeKey := ModeText(b.spec.mode)];
    var after := service.(annotations := annotations, selector := map[]);
    assert after == Hijacked(service, client.who);
    if client.exclusive {
      HijackTwice(client.base.services[client.who.service], client.who);
    }
    if service.selector == after.selector && service.annotations == after.annotations {
      assert client.world.shared.services == client.world.shared.services[client.who.service := after];
      return Ok(());
    }
    r := client.PatchService(b, b.status.snapshot.value.serviceName, service, after);
  }

  /** The Service of the snapshot, with all mapped ports, and no other binding's. */
  predicate Interceptable(b: Binding, c: Shared, t: string)
    requires b.status.snapshot.Some?
  {
    && t in c.services && c.services[t].uid == b.status.snapshot.value.serviceUid
    && Resolvable(c.services[t].ports, b.spec.ports) && !Foreign(c.services[t], b.uid)
  }

  /** Traffic to the Service has nowhere to go: neither slice nor Endpoints. */
  predicate CutOff(who: Subject, c: Shared) {
    (forall n :: n in c.slices ==> !Labelled(c.slices[n], who.service)) && who.service !in c.endpoints
  }

  /** What an undisturbed interception needs. */
  predicate Relayable(b: Binding, who: Subject, c: Shared)
    requires b.status.snapshot.Some?
  {
    Interceptable(b, c, who.service) && SlotUsable(who, c)
  }

  /** Whatever others write meanwhile: since that position of the run the captured Service was read, no other
      binding's, and found claimed or claimed by a patch, and its traffic was relayed. */
  ghost predicate InterceptedSince(who: Subject, b: Binding, start: World, history: seq<Step>, from: nat)
    requires RelayReady(b.spec) && b.status.snapshot.Some?
  {
    exists read: Service, at: nat :: ServiceHeld(start, history, from, who.service, read) &&
      InterceptedAs(who, b, start, history, from, at, read)
  }

  /** The claim came first. */
  ghost predicate InterceptedAs(who: Subject, b: Binding, start: World, history: seq<Step>, from: nat, at: nat,
                                read: Service)
    requires RelayReady(b.spec) && b.status.snapshot.Some?
  {
    && read.uid == b.status.snapshot.value.serviceUid && !Foreign(read, who.uid)
    && Resolvable(read.ports, b.spec.ports) && from <= at <= |history|
    && (read == Hijacked(read, who) || ServicePatched(history[..at], from, who.service, read, Hijacked(read, who)))
    && TrafficRelayed(who, start, history, at,
                      DesiredRelaySlice(b, who.service, read.uid, Resolved(read.ports, b.spec.ports)))
  }

  lemma TrafficStays(who: Subject, start: World, history: seq<Step>, history': seq<Step>, from: nat, relay: Slice)
    requires history <= history' && TrafficRelayed(who, start, history, from, relay)
    ensures TrafficRelayed(who, start, history', from, relay)
  {
    hide TrafficCut, SliceRelayed;
    var cut: nat :| from <= cut <= |history| && TrafficCut(who, start, history[..cut], from) &&
                    SliceRelayed(who, start, history, cut, relay);
    assert history'[..cut] == history[..cut];
    RelayedStays(who, start, history, cut, history', cut, relay);
  }

  lemma ServiceStays(who: Subject, start: World, history: seq<Step>, history': seq<Step>, from: nat, read: Service)
    requires history <= history' && ServiceHeld(start, history, from, who.service, read)
    ensures ServiceHeld(start, history', from, who.service, read)
  {
    SeenStays(start, history, from, history', from);
  }

  lemma InterceptedStaysAs(who: Subject, b: Binding, start: World, history: seq<Step>, history': seq<Step>, from: nat,
                           at: nat, read: Service)
    requires RelayReady(b.spec) && b.status.snapshot.Some? && history <= history'
    requires InterceptedAs(who, b, start, history, from, at, read)
    ensures InterceptedAs(who, b, start, history', from, at, read)
  {
    hide ServicePatched, TrafficRelayed, DesiredRelaySlice, Lookup, Hijacked;
    assert history'[..at] == history[..at];
    TrafficStays(who, start, history, history', at,
                 DesiredRelaySlice(b, who.service, read.uid, Resolved(read.ports, b.spec.ports)));
  }

  lemma InterceptedStays(who: Subject, b: Binding, start: World, history: seq<Step>, history': seq<Step>, from: nat)
    requires RelayReady(b.spec) && b.status.snapshot.Some? && history <= history'
    requires InterceptedSince(who, b, start, history, from)
    ensures InterceptedSince(who, b, start, history', from)
  {
    hide InterceptedAs, ServiceHeld;
    var read, at :| ServiceHeld(start, history, from, who.service, read) &&
                    InterceptedAs(who, b, start, history, from, at, read);
    ServiceStays(who, start, history, history', from, read);
    InterceptedStaysAs(who, b, start, history, history', from, at, read);
  }

  /** Interception. Once it succeeds while nobody else writes, from whatever half-done state, the cluster is the one
      it found, redirected to the relay. */
  method ReconcileIntercept(client: ApiServer, b: Binding) returns (r: Result<()>)
    requires Known(client, b) && MayMark(client.who, b) && Intercepting(client.who.mode) && RelayReady(b.spec)
    modifies client
    ensures Known(client, b) && old(client.history) <= client.history
    ensures r.Ok? ==> InterceptedSince(client.who, b, client.start, client.history, |old(client.history)|)
    ensures r.Ok? && client.Alone() ==>
              && client.who.service in old(client.world).shared.services
              && Resolvable(old(client.world).shared.services[client.who.service].ports, b.spec.ports)
              && client.world.shared == Redirected(b, client.who, old(client.world).shared)
    ensures r.Ok? && client.exclusive ==>
              && client.who.service in client.base.services
              && Resolvable(client.base.services[client.who.service].ports, b.spec.ports)
              && client.world.shared == Redirected(b, client.who, client.base)
    ensures client.quiet && Relayable(b, client.who, old(client.world).shared) &&
            old(client.world).shared == Redirected(b, client.who, old(client.world).shared) ==>
              client.history == old(client.history)
    ensures client.quiet ==>
              && client.world.binding == old(client.world).binding
              && (r.Ok? <==> Relayable(b, client.who, old(client.world).shared))
              && (r.Err? ==> !Relayable(b, client.who, client.world.shared))
              && (r.Err? ==> r.error == if client.who.service in old(client.world).shared.services then Permanent
                                        else NotFound)
              && (!Interceptable(b, old(client.world).shared, client.who.service) ==> client.world == old(client.world))
              && (r.Err? && Interceptable(b, old(client.world).shared, client.who.service) ==>
                    CutOff(client.who, client.world.shared) && client.who.service in client.world.shared.services &&
                    client.world.shared.services[client.who.service].selector == map[])
  {
    hide Inv, Guarantee, Outside, Drifts, Faithful, Pristine, SlotUsable, Redirected, OnlyRelayed, SlicesPart,
         ServicesPart, EndpointsPart, ServiceHeld, InterceptedAs, Chain;
    var snapshot := b.status.snapshot.value;
    var service := client.GetService(snapshot.serviceName);
    if client.exclusive { Restore.IntermediateState(client, b); }
    if service.Err? { return Err(service.error); }
    if service.value.uid != snapshot.serviceUid { return Err(Permanent); }
    var ports := ResolveServicePorts(service.value.ports, b.spec.ports);
    if ports.None? { return Err(Permanent); }
    if Lookup(service.value.annotations, UidKey) != "" && Lookup(service.value.annotations, UidKey) != b.uid {
      return Err(Permanent);
    }
    ghost var found, got := client.world.shared, client.history;
    SeenNow(client.start, client.history, client.world, |old(client.history)|);
    r := Redirect(client, b, service.value, ports.value);
    if r.Ok? { InterceptedEarlier(client, b, |old(client.history)|, got, service.value); }
    if client.exclusive {
      SamePorts(client.who, client.base, found);
      RedirectedFromAnywhere(b, client.who, client.base, found);
    }
  }

  lemma InterceptedEarlier(client: ApiServer, b: Binding, from: nat, got: seq<Step>, read: Service)
    requires RelayReady(b.spec) && b.status.snapshot.Some? && from <= |got| && got <= client.history
    requires ServiceHeld(client.start, got, from, client.who.service, read)
    requires exists at: nat :: InterceptedAs(client.who, b, client.start, client.history, |got|, at, read)
    ensures InterceptedSince(client.who, b, client.start, client.history, from)
  {
    hide TrafficRelayed, DesiredRelaySlice, Hijacked;
    var at: nat :| InterceptedAs(client.who, b, client.start, client.history, |got|, at, read);
    ServiceStays(client.who, client.start, got, client.history, from, read);
    PutStays(client.history[..at], |got|, client.history[..at], from);
    assert InterceptedAs(client.who, b, client.start, client.history, from, at, read);
  }

  /** The claim on the captured Service, and what follows it. */
  method Redirect(client: ApiServer, b: Binding, service: Service, ports: seq<TrafficPort>) returns (r: Result<()>)
    requires Known(client, b) && MayMark(client.who, b) && Intercepting(client.who.mode) && RelayReady(b.spec)
    requires client.who.service in client.world.shared.services &&
             client.world.shared.services[client.who.service] == service
    requires service.uid == b.status.snapshot.value.serviceUid && !Foreign(service, client.who.uid)
    requires Resolvable(service.ports, b.spec.ports) && ports == Resolved(service.ports, b.spec.ports)
    requires client.exclusive ==>
               Pristine(client.who, client.base) && PartlyHijacked(client.who, client.base, client.world.shared)
    modifies client
    ensures Known(client, b) && old(client.history) <= client.history
    ensures r.Ok? ==>
              exists at: nat ::
                InterceptedAs(client.who, b, client.start, client.history, |old(client.history)|, at, service)
    ensures r.Ok? && client.Alone() ==> client.world.shared == Redirected(b, client.who, old(client.world).shared)
    ensures client.quiet && old(client.world).shared == Redirected(b, client.who, old(client.world).shared) ==>
              client.history == old(client.history)
    ensures client.quiet ==>
              && client.world.binding == old(client.world).binding
              && (r.Ok? <==> SlotUsable(client.who, old(client.world).shared))
              && (r.Err? ==> !SlotUsable(client.who, client.world.shared) && r.error.Permanent?)
              && (r.Err? ==> CutOff(client.who, client.world.shared) &&
                             client.who.service in client.world.shared.services &&
                             client.world.shared.services[client.who.service].selector == map[])
  {
    hide Inv, Guarantee, Outside, Drifts, Faithful, Pristine, SlotUsable, Redirected, OnlyRelayed, SlicesPart,
         ServicesPart, EndpointsPart, ServicePatched, TrafficRelayed, InterceptedAs, RelayedAlready, DesiredRelaySlice,
         Chain;
    KeepRelays(service.ports, b.spec.ports);
    ghost var found, got := client.world.shared, client.history;
    if found == Redirected(b, client.who, found) { RedirectedAlready(b, client.who, found); }
    r := ClaimService(client, b, service);
    if r.Err? { return; }
    ghost var claimed, done := client.world.shared, client.history;
    r := RelayTraffic(client, b, service, ports);
    if r.Ok? { ClaimedAndRelayed(client, b, |got|, done, service); }
    if client.Alone() {
      SameSlot(client.who, found, claimed);
      if r.Ok? { ClaimedThenRelayed(b, client.who, found, client.world.shared); }
    }
  }

  lemma RedirectedAlready(b: Binding, who: Subject, c: Shared)
    requires WellFormed(who, b) && RelayReady(b.spec) && b.status.snapshot.Some?
    requires who.service in c.services && Resolvable(c.services[who.service].ports, b.spec.ports)
    requires c == Redirected(b, who, c)
    ensures var s := c.services[who.service];
            && s == Hijacked(s, who)
            && RelayedAlready(who, c, DesiredRelaySlice(b, who.service, s.uid, Resolved(s.ports, b.spec.ports)))
  {
    var s := c.services[who.service];
    var relay := DesiredRelaySlice(b, who.service, s.uid, Resolved(s.ports, b.spec.ports));
    DesiredRelaySliceIsOwn(who, b, s.uid, Resolved(s.ports, b.spec.ports));
    assert c.services[who.service] == Hijacked(s, who);
    assert c.slices == OnlyRelayed(who, c.slices, relay);
    assert who.service !in c.endpoints - {who.service};
    forall n | n in c.slices && Labelled(c.slices[n], who.service) ensures IsMine(who, NamedSlice(n, c.slices[n])) {
      assert n == ManagedSlice(who);
    }
  }

  lemma KeepRelays(ports: seq<ServicePort>, mappings: seq<TrafficPort>)
    requires Resolvable(ports, mappings) && forall i :: 0 <= i < |mappings| ==> mappings[i].relayPort.Some?
    ensures forall i :: 0 <= i < |Resolved(ports, mappings)| ==> Resolved(ports, mappings)[i].relayPort.Some?
  {}

  lemma ClaimedAndRelayed(client: ApiServer, b: Binding, from: nat, done: seq<Step>, read: Service)
    requires RelayReady(b.spec) && b.status.snapshot.Some?
    requires read.uid == b.status.snapshot.value.serviceUid && !Foreign(read, client.who.uid)
    requires Resolvable(read.ports, b.spec.ports) && from <= |done| && done <= client.history
    requires read == Hijacked(read, client.who) ||
             ServicePatched(done, from, client.who.service, read, Hijacked(read, client.who))
    requires TrafficRelayed(client.who, client.start, client.history, |done|,
                            DesiredRelaySlice(b, client.who.service, read.uid, Resolved(read.ports, b.spec.ports)))
    ensures exists at: nat :: InterceptedAs(client.who, b, client.start, client.history, from, at, read)
  {
    assert client.history[..|done|] == done;
    assert InterceptedAs(client.who, b, client.start, client.history, from, |done|, read);
  }

  /** What is redirected can be redirected again, and what can be captured can be redirected. */
  lemma RedirectedIsRelayable(b: Binding, who: Subject, c: Shared)
    requires WellFormed(who, b) && RelayReady(b.spec) && b.status.snapshot.Some? && Relayable(b, who, c)
    ensures Relayable(b, who, Redirected(b, who, c))
  {
    var s := c.services[who.service];
    DesiredRelaySliceIsOwn(who, b, s.uid, Resolved(s.ports, b.spec.ports));
  }

  lemma CapturedIsRelayable(b: Binding, who: Subject, c: Shared, snapshot: Snapshot, b': Binding)
    requires Capturable(b, c, who.service) && Faithful(snapshot, c, who.service)
    requires b' == b.(status := b'.status) && b'.status.snapshot == Some(snapshot)
    ensures Relayable(b', who, c) <==> SlotUsable(who, c)
  {}

  lemma SamePorts(who: Subject, base: Shared, c: Shared)
    requires PartlyHijacked(who, base, c)
    ensures who.service in base.services && who.service in c.services
    ensures c.services[who.service].ports == base.services[who.service].ports
  {}

  lemma SameSlot(who: Subject, c: Shared, c': Shared)
    requires c'.slices == c.slices
    ensures SlotUsable(who, c') <==> SlotUsable(who, c)
  {}

  lemma ClaimedThenRelayed(b: Binding, who: Subject, was: Shared, now: Shared)
    requires who.service in was.services && RelayReady(b.spec)
    requires var s := was.services[who.service];
             && Resolvable(s.ports, b.spec.ports)
             && now == Shared(
                  was.services[who.service := Hijacked(s, who)],
                  OnlyRelayed(who, was.slices,
                              DesiredRelaySlice(b, who.service, s.uid, Resolved(s.ports, b.spec.ports))),
                  was.endpoints - {who.service})
    ensures now == Redirected(b, who, was)
  {}

  lemma OwnIsControlled(client: ApiServer, b: Binding)
    requires client.Valid() && Licensed(client.who, b, client.world)
    ensures OwnSlice(client.who, client.world.shared) ==> RelaySlotFree(client.who, client.world.shared)
  {}

  /** Since that position of the run all that led past the relay has been absent. */
  ghost predicate TrafficCut(who: Subject, start: World, history: seq<Step>, from: nat) {
    SlicesRemoved(who, start, history, from) && EndpointsGone(start, history, from, who.service)
  }

  /** And after that the relay's slice was there. */
  ghost predicate TrafficRelayed(who: Subject, start: World, history: seq<Step>, from: nat, relay: Slice) {
    exists cut: nat :: from <= cut <= |history| && TrafficCut(who, start, history[..cut], from) &&
                       SliceRelayed(who, start, history, cut, relay)
  }

  /** Slices and Endpoints of the Service go. */
  method CutTraffic(client: ApiServer, b: Binding) returns (r: Result<()>)
    requires Known(client, b) && MayMark(client.who, b) && Intercepting(client.who.mode)
    requires NotForeign(client.who, client.world.shared)
    requires client.exclusive ==>
               Pristine(client.who, client.base) &&
                 SlicesPart(client.who, client.base.slices, client.world.shared.slices)
    modifies client
    ensures Known(client, b) && old(client.history) <= client.history
    ensures r.Ok? ==> TrafficCut(client.who, client.start, client.history, |old(client.history)|)
    ensures r.Ok? && client.Alone() ==>
              && client.world.shared == Shared(old(client.world).shared.services, client.world.shared.slices,
                                               old(client.world).shared.endpoints - {client.who.service})
              && Stripped(client.who, old(client.world).shared.slices, client.world.shared.slices)
              && (OwnSlice(client.who, old(client.world).shared) ==>
                    ManagedSlice(client.who) in client.world.shared.slices)
    ensures client.quiet && AllMine(client.who, old(client.world).shared.slices) &&
            client.who.service !in old(client.world).shared.endpoints ==>
              client.history == old(client.history) && client.world == old(client.world)
    ensures client.quiet ==> r.Ok? && client.world.binding == old(client.world).binding
  {
    hide Inv, Guarantee, Outside, Drifts, Faithful, Stripped, SlicesPart, Chain, EndpointsGone, RemovedSoFar;
    r := RemoveSlices(client, b);
    if r.Err? { return; }
    ghost var removed := client.history;
    r := client.DeleteEndpoints(b, ServiceOf(b.spec));
    if r.Err? && !r.error.NotFound? { return; }
    SeenNow(client.start, client.history, client.world, |old(client.history)|);
    RemovedStays(client.who, client.start, removed, client.history, |old(client.history)|);
    r := Ok(());
  }

  /** There is nothing to cut, and the relay's slice is in place. */
  ghost predicate RelayedAlready(who: Subject, c: Shared, relay: Slice) {
    && AllMine(who, c.slices) && who.service !in c.endpoints
    && ManagedSlice(who) in c.slices && c.slices[ManagedSlice(who)] == relay
  }

  /** What follows the claim: slices and Endpoints go, the relay slice comes. */
  method RelayTraffic(client: ApiServer, b: Binding, service: Service, ports: seq<TrafficPort>) returns (r: Result<()>)
    requires Known(client, b) && MayMark(client.who, b) && Intercepting(client.who.mode) && RelayReady(b.spec)
    requires NotForeign(client.who, client.world.shared)
    requires forall i :: 0 <= i < |ports| ==> ports[i].relayPort.Some?
    requires client.exclusive ==>
               Pristine(client.who, client.base) &&
                 SlicesPart(client.who, client.base.slices, client.world.shared.slices)
    modifies client
    ensures Known(client, b) && old(client.history) <= client.history
    ensures r.Ok? ==>
              TrafficRelayed(client.who, client.start, client.history, |old(client.history)|,
                             DesiredRelaySlice(b, client.who.service, service.uid, ports))
    ensures r.Ok? && client.Alone() ==>
              client.world.shared == Shared(
                old(client.world).shared.services,
                OnlyRelayed(client.who, old(client.world).shared.slices,
                            DesiredRelaySlice(b, client.who.service, service.uid, ports)),
                old(client.world).shared.endpoints - {client.who.service})
    ensures client.quiet &&
            RelayedAlready(client.who, old(client.world).shared,
                           DesiredRelaySlice(b, client.who.service, service.uid, ports)) ==>
              client.history == old(client.history)
    ensures client.quiet ==>
              && client.world.binding == old(client.world).binding
              && (r.Ok? <==> SlotUsable(client.who, old(client.world).shared))
              && (r.Err? ==> !SlotUsable(client.who, client.world.shared))
              && (r.Err? ==> r.error.Permanent?)
              && (r.Err? ==> CutOff(client.who, client.world.shared) &&
                             client.world.shared.services == old(client.world).shared.services)
  {
    hide Inv, Guarantee, Outside, Drifts, Faithful, Redirected, OnlyRelayed, Stripped, SlicesPart, Chain, EndpointsGone,
         TrafficCut, SliceRelayed;
    ghost var was := client.world.shared;
    OwnIsControlled(client, b);
    r := CutTraffic(client, b);
    if r.Err? { return; }
    ghost var cut, mid := client.world.shared, client.history;
    if client.Alone() { StrippedSlot(client.who, was, cut); }
    r := ReconcileRelaySlice(client, b, service, ports);
    ghost var relay := DesiredRelaySlice(b, client.who.service, service.uid, ports);
    if r.Ok? {
      assert client.history[..|mid|] == mid;
      if client.Alone() { StrippedThenRelayed(client.who, was.slices, cut.slices, relay); }
    }
  }
}
