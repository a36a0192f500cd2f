/** The Service and relay slice of a preview. */
module PreviewService {
  import opened Kube
  import opened Bindings
  import opened Safety
  import opened Writes
  import opened Api
  import opened StatusWriter
  import opened Validation
  import opened Intercept

  function Decimal(n: nat): string {
    if n < 10 then ["0123456789"[n]] else Decimal(n / 10) + ["0123456789"[n % 10]]
  }

  function Number(s: string): nat {
    if s == "" then 0
    else
      var c := s[|s| - 1];
      10 * Number(s[..|s| - 1]) + (if '0' <= c <= '9' then c as int - '0' as int else 0)
  }

  /** So ports of different numbers get different names. */
  lemma {:induction false} DecimalReads(n: nat)
    ensures Number(Decimal(n)) == n
  {
    var d := Decimal(n);
    assert forall k :: 0 <= k < 10 ==> "0123456789"[k] as int == '0' as int + k;
    if n >= 10 {
      DecimalReads(n / 10);
      assert d[..|d| - 1] == Decimal(n / 10);
    } else {
      assert d[..0] == "";
    }
  }

  function Text(n: int): string { if n < 0 then "-" + Decimal(-n) else Decimal(n) }

  function ServicePortName(mapping: TrafficPort): string {
    if mapping.name != "" then mapping.name
    else (if mapping.protocol.UdpProtocol? then "udp-" else "tcp-") +
         Text(mapping.targetPort)
  }

  function DesiredPorts(mappings: seq<TrafficPort>): seq<ServicePort>
    requires forall i :: 0 <= i < |mappings| ==> mappings[i].relayPort.Some?
  {
    seq(|mappings|, i requires 0 <= i < |mappings| =>
      ServicePort(ServicePortName(mappings[i]), CoreProtocol(mappings[i].protocol),
                  mappings[i].targetPort, mappings[i].relayPort.value))
  }

  method BuildPorts(mappings: seq<TrafficPort>) returns (ports: seq<ServicePort>)
    requires forall i :: 0 <= i < |mappings| ==> mappings[i].relayPort.Some?
    ensures ports == DesiredPorts(mappings)
  {
    ports := [];
    for i := 0 to |mappings|
      invariant |ports| == i && forall k :: 0 <= k < i ==> ports[k] == DesiredPorts(mappings)[k]
    {
      var mapping := mappings[i];
      var protocol, transport := TCP, "tcp";
      if mapping.protocol.UdpProtocol? { protocol, transport := UDP, "udp"; }
      var name := mapping.name;
      assert "udp" + "-" == "udp-" && "tcp" + "-" == "tcp-";
      if name == "" { name := transport + "-" + Text(mapping.targetPort); }
      ports := ports + [ServicePort(name, protocol, mapping.targetPort, mapping.relayPort.value)];
    }
  }

  function ApplyMetadata(s: Service, b: Binding): Service {
    s.(labels := s.labels[ManagedBy := "kubeloop-operator"][BindingLabel := LabelValue(b.uid)],
       annotations := s.annotations[NameKey := b.name][UidKey := b.uid][ModeKey := ModeText(b.spec.mode)])
  }

  /** Every mapping finds its port on the Service built from the mappings. */
  lemma OwnPortsResolve(mappings: seq<TrafficPort>)
    requires forall i :: 0 <= i < |mappings| ==> mappings[i].relayPort.Some?
    ensures Resolvable(DesiredPorts(mappings), mappings)
  {
    forall i | 0 <= i < |mappings| ensures FindPort(DesiredPorts(mappings), mappings[i]).Some? {
      assert Matches(DesiredPorts(mappings)[i], mappings[i]);
    }
  }

  /** The form a preview Service is kept in, whatever it was. */
  function PreviewForm(s: Service, b: Binding): Service
    requires RelayReady(b.spec)
  {
    ApplyMetadata(s, b).(kind := ClusterIPService, selector := map[], ports := DesiredPorts(b.spec.ports))
  }

  /** The preview is in place: its Service in the desired form and its slice relaying. */
  ghost predicate PreviewSettled(b: Binding, who: Subject, c: Shared) {
    && RelayReady(b.spec) && who.service in c.services
    && ControlledBy(c.services[who.service].owners, who.uid)
    && c.services[who.service] == PreviewForm(c.services[who.service], b)
    && Resolvable(DesiredPorts(b.spec.ports), b.spec.ports)
    && ManagedSlice(who) in c.slices
    && c.slices[ManagedSlice(who)] ==
       DesiredRelaySlice(b, who.service, c.services[who.service].uid,
                         Resolved(DesiredPorts(b.spec.ports), b.spec.ports))
  }

  lemma PreviewFormTwice(s: Service, b: Binding)
    requires RelayReady(b.spec)
    ensures PreviewForm(PreviewForm(s, b), b) == PreviewForm(s, b)
  {
    var once := PreviewForm(s, b);
    assert PreviewForm(once, b).labels == once.labels;
    assert PreviewForm(once, b).annotations == once.annotations;
  }

  function DesiredPreview(b: Binding): Service
    requires RelayReady(b.spec)
  {
    PreviewForm(Service("", "", ClusterIPService, map[], map[], map[], [OwnerRef(b.uid, true)], []), b)
  }

  lemma DesiredPreviewIsOwn(who: Subject, b: Binding)
    requires WellFormed(who, b) && RelayReady(b.spec)
    ensures Owned(DesiredPreview(b).annotations, who) && ControlledBy(DesiredPreview(b).owners, who.uid)
  {
    assert DesiredPreview(b).owners[0] == OwnerRef(b.uid, true);
  }

  predicate NameFree(c: Shared, n: string, uid: string) {
    n in c.services ==> ControlledBy(c.services[n].owners, uid)
  }

  method CreatePreviewService(client: ApiServer, b: Binding) returns (r: Result<Service>)
    requires Known(client, b) && MayMark(client.who, b) && client.who.mode == Preview && RelayReady(b.spec)
    modifies client
    ensures Known(client, b) && old(client.history) <= client.history
    ensures r.Ok? ==> ControlledBy(r.value.owners, b.uid) && r.value == PreviewForm(r.value, b)
    ensures r.Ok? ==> ServiceHeld(client.start, client.history, |old(client.history)|, client.who.service, r.value)
    ensures r.Err? ==> r.error.Permanent? || r.error.Unavailable?
    ensures r.Err? && r.error.Permanent? ==> client.who.service in client.world.shared.services
    ensures r.Ok? && client.Alone() ==>
              && client.who.service !in old(client.world).shared.services
              && client.world.shared ==
                 old(client.world).shared.(services := old(client.world).shared.services[client.who.service := r.value])
    ensures client.quiet ==> client.world.binding == old(client.world).binding
    ensures client.quiet && client.who.service !in old(client.world).shared.services ==> r.Ok?
  {
    DesiredPreviewIsOwn(client.who, b);
    PreviewFormTwice(Service("", "", ClusterIPService, map[], map[], map[], [OwnerRef(b.uid, true)], []), b);
    hide Inv, Guarantee, Outside, Drifts, UserStep, DesiredPorts, Coherent, SnapshotSafe, Lookup, ControlledBy;
    var ports := BuildPorts(b.spec.ports);
    var labels: Strings := map[ManagedBy := "kubeloop-operator", BindingLabel := LabelValue(b.uid)];
    var annotations: Strings := map[NameKey := b.name, UidKey := b.uid, ModeKey := ModeText(b.spec.mode)];
    var desired := Service("", "", ClusterIPService, map[], labels, annotations, [OwnerRef(b.uid, true)], ports);
    assert desired == DesiredPreview(b);
    r := client.CreateService(b, b.spec.preview.value, desired);
    if r.Err? && r.error.AlreadyExists? { r := Err(Permanent); }
    if r.Ok? { SeenNow(client.start, client.history, client.world, |old(client.history)|); }
  }

  /** Since that position of the run the preview's Service was as given, or was read under the binding's control and
      patched into its form. */
  ghost predicate PreviewMade(who: Subject, b: Binding, start: World, history: seq<Step>, from: nat, s: Service)
    requires RelayReady(b.spec)
  {
    || ServiceHeld(start, history, from, who.service, s)
    || exists read :: ServiceHeld(start, history, from, who.service, read) && ControlledBy(read.owners, b.uid) &&
                      s == PreviewForm(read, b) && ServicePatched(history, from, who.service, read, s)
  }

  lemma MadeStays(who: Subject, b: Binding, start: World, history: seq<Step>, history': seq<Step>, from: nat,
                  s: Service)
    requires RelayReady(b.spec) && history <= history' && PreviewMade(who, b, start, history, from, s)
    ensures PreviewMade(who, b, start, history', from, s)
  {
    SeenStays(start, history, from, history', from);
    PutStays(history, from, history', from);
  }

  lemma MadeSince(who: Subject, b: Binding, start: World, history: seq<Step>, at: nat, from: nat, s: Service)
    requires RelayReady(b.spec) && from <= at && ServiceHeld(start, history, at, who.service, s)
    ensures PreviewMade(who, b, start, history, from, s)
  {
    SeenStays(start, history, at, history, from);
  }

  lemma MadeByPatch(who: Subject, b: Binding, start: World, got: seq<Step>, history: seq<Step>, from: nat,
                    read: Service)
    requires RelayReady(b.spec) && from <= |got| && got <= history && ControlledBy(read.owners, b.uid)
    requires ServiceHeld(start, got, from, who.service, read)
    requires ServicePatched(history, |got|, who.service, read, PreviewForm(read, b))
    ensures PreviewMade(who, b, start, history, from, PreviewForm(read, b))
  {
    SeenStays(start, got, from, history, from);
    PutStays(history, |got|, history, from);
  }

  /** The Service of the preview exists, is the binding's and has the desired form. */
  method EnsurePreviewService(client: ApiServer, b: Binding) returns (r: Result<Service>)
    requires Known(client, b) && MayMark(client.who, b) && client.who.mode == Preview && RelayReady(b.spec)
    modifies client
    ensures Known(client, b) && old(client.history) <= client.history
    ensures r.Ok? ==> ControlledBy(r.value.owners, b.uid) && r.value == PreviewForm(r.value, b)
    ensures r.Ok? ==> PreviewMade(client.who, b, client.start, client.history, |old(client.history)|, r.value)
    ensures client.quiet && r.Err? ==> r.error.Permanent?
    ensures client.quiet && client.who.service in old(client.world).shared.services &&
            ControlledBy(old(client.world).shared.services[client.who.service].owners, b.uid) &&
            old(client.world).shared.services[client.who.service] ==
            PreviewForm(old(client.world).shared.services[client.who.service], b) ==>
              client.history == old(client.history) && client.world == old(client.world)
    ensures r.Ok? && client.Alone() ==>
              && client.world.shared ==
                 old(client.world).shared.(services := old(client.world).shared.services[client.who.service := r.value])
              && (client.who.service in old(client.world).shared.services ==>
                    r.value == PreviewForm(old(client.world).shared.services[client.who.service], b))
    ensures client.quiet ==> client.world.binding == old(client.world).binding
    ensures client.quiet ==>
              if NameFree(old(client.world).shared, client.who.service, b.uid) then r.Ok?
              else r.Err? && client.world == old(client.world)
  {
    hide Inv, Guarantee, Outside, Drifts, UserStep, DesiredPorts, Coherent, SnapshotSafe, Lookup, ControlledBy,
         PreviewMade, ServiceHeld, ServicePatched, Chain, Faithful;
    var name := b.spec.preview.value;
    var current := client.GetService(name);
    if current.Err? {
      if !current.error.NotFound? { return Err(current.error); }
      ghost var missed := client.history;
      r := CreatePreviewService(client, b);
      if r.Ok? {
        MadeSince(client.who, b, client.start, client.history, |missed|, |old(client.history)|, r.value);
      }
      return;
    }
    ghost var got := client.history;
    SeenNow(client.start, client.history, client.world, |old(client.history)|);
    if !ControlledBy(current.value.owners, b.uid) { return Err(Permanent); }
    var labels := current.value.labels[ManagedBy := "kubeloop-operator"][BindingLabel := LabelValue(b.uid)];
    var annotations := current.value.annotations[NameKey := b.name][UidKey := b.uid][ModeKey := ModeText(b.spec.mode)];
    var ports := BuildPorts(b.spec.ports);
    var service := current.value.(labels := labels, annotations := annotations, kind := ClusterIPService,
                                  selector := map[], ports := ports);
    assert service == PreviewForm(current.value, b);
    PreviewFormTwice(current.value, b);
    if service != current.value {
      var patched := client.PatchService(b, name, current.value, service);
      if patched.Err? { return Err(patched.error); }
      MadeByPatch(client.who, b, client.start, got, client.history, |old(client.history)|, current.value);
    } else {
      MadeSince(client.who, b, client.start, client.history, |old(client.history)|, |old(client.history)|, service);
      assert client.world.shared.services == client.world.shared.services[name := service];
    }
    r := Ok(service);
  }

  /** What an undisturbed preview needs: both names free or its own. */
  predicate Previewable(b: Binding, who: Subject, c: Shared) {
    NameFree(c, who.service, b.uid) && RelaySlotFree(who, c)
  }

  /** Whatever others write meanwhile: since that position of the run the preview's Service was made, and its slice
      relayed. */
  ghost predicate PreviewedSince(who: Subject, b: Binding, start: World, history: seq<Step>, from: nat, s: Service) {
    && RelayReady(b.spec) && ControlledBy(s.owners, b.uid) && s == PreviewForm(s, b)
    && Resolvable(DesiredPorts(b.spec.ports), b.spec.ports)
    && PreviewMade(who, b, start, history, from, s)
    && SliceRelayed(who, start, history, from,
                    DesiredRelaySlice(b, who.service, s.uid, Resolved(DesiredPorts(b.spec.ports), b.spec.ports)))
  }

  lemma PreviewedStays(who: Subject, b: Binding, start: World, history: seq<Step>, history': seq<Step>, from: nat,
                       s: Service)
    requires history <= history' && PreviewedSince(who, b, start, history, from, s)
    ensures PreviewedSince(who, b, start, history', from, s)
  {
    KeepRelays(DesiredPorts(b.spec.ports), b.spec.ports);
    MadeStays(who, b, start, history, history', from, s);
    RelayedStays(who, start, history, from, history', from,
                 DesiredRelaySlice(b, who.service, s.uid, Resolved(DesiredPorts(b.spec.ports), b.spec.ports)));
  }

  lemma MadeAndRelayed(client: ApiServer, b: Binding, made: seq<Step>, from: nat, s: Service)
    requires RelayReady(b.spec) && ControlledBy(s.owners, b.uid) && s == PreviewForm(s, b)
    requires Resolvable(DesiredPorts(b.spec.ports), b.spec.ports) && from <= |made| && made <= client.history
    requires PreviewMade(client.who, b, client.start, made, from, s)
    requires SliceRelayed(client.who, client.start, client.history, |made|,
               DesiredRelaySlice(b, client.who.service, s.uid, Resolved(DesiredPorts(b.spec.ports), b.spec.ports)))
    ensures PreviewedSince(client.who, b, client.start, client.history, from, s)
  {
    MadeStays(client.who, b, client.start, made, client.history, from, s);
    RelayedStays(client.who, client.start, client.history, |made|, client.history, from,
      DesiredRelaySlice(b, client.who.service, s.uid, Resolved(DesiredPorts(b.spec.ports), b.spec.ports)));
  }

  method ReconcilePreview(client: ApiServer, b: Binding) returns (r: Result<Service>)
    requires Known(client, b) && MayMark(client.who, b) && client.who.mode == Preview && RelayReady(b.spec)
    modifies client
    ensures Known(client, b) && old(client.history) <= client.history
    ensures client.quiet ==>
              && client.world.binding == old(client.world).binding
              && (r.Ok? <==> Previewable(b, client.who, old(client.world).shared))
              && (r.Err? ==> !Previewable(b, client.who, client.world.shared) && r.error.Permanent?)
    ensures client.quiet && !NameFree(old(client.world).shared, client.who.service, b.uid) ==>
              r.Err? && client.world == old(client.world)
    ensures r.Ok? ==> PreviewedSince(client.who, b, client.start, client.history, |old(client.history)|, r.value)
    ensures r.Ok? && client.Alone() ==>
              PreviewSettled(b, client.who, client.world.shared) &&
                client.world.shared.services[client.who.service] == r.value
    ensures client.quiet && PreviewSettled(b, client.who, old(client.world).shared) ==>
              r.Ok? && client.world == old(client.world) && client.history == old(client.history)
  {
    hide Inv, Guarantee, Outside, Drifts, FindPort, UserStep, Resolvable, Resolved, DesiredRelaySlice, DesiredPorts,
         ApplyMetadata, Coherent, SnapshotSafe, PartlyPreviewed, PreviewMade, SliceRelayed, Chain,
         PreviewedSince, Faithful, StepOk, DeletionsJustified, Lookup;
    OwnPortsResolve(b.spec.ports);
    if PreviewSettled(b, client.who, client.world.shared) { SettledIsPreviewable(client.who, b, client.world.shared); }
    r := EnsurePreviewService(client, b);
    if r.Err? { return; }
    var service := r.value;
    assert service.ports == DesiredPorts(b.spec.ports);
    var ports := ResolveServicePorts(service.ports, b.spec.ports);
    if ports.None? { return Err(Permanent); }
    KeepRelays(service.ports, b.spec.ports);
    ghost var made := client.history;
    var relayed := ReconcileRelaySlice(client, b, service, ports.value);
    if relayed.Err? { return Err(relayed.error); }
    MadeAndRelayed(client, b, made, |old(client.history)|, service);
    if client.quiet && PreviewSettled(b, client.who, old(client.world).shared) {
      SettledUnchanged(b, client.who, old(client.world).shared);
    }
    r := Ok(service);
  }

  lemma SettledIsPreviewable(who: Subject, b: Binding, c: Shared)
    requires PreviewSettled(b, who, c) && WellFormed(who, b)
    ensures Previewable(b, who, c)
  {
    var s := c.services[who.service];
    var ports := Resolved(DesiredPorts(b.spec.ports), b.spec.ports);
    KeepRelays(DesiredPorts(b.spec.ports), b.spec.ports);
    DesiredRelaySliceIsOwn(who, b, s.uid, ports);
  }

  /** The clients of a settled preview reach the relay: its Service selects no Pods and offers every mapping's target
      port, in order, with its transport, and all its slice does is send to the relay. */
  lemma SettledSends(who: Subject, b: Binding, c: Shared)
    requires PreviewSettled(b, who, c)
    ensures SendsToRelay(b, c.slices[ManagedSlice(who)], c.services[who.service])
    ensures var s := c.services[who.service];
            && s.selector == map[] && s.kind.ClusterIPService? && |s.ports| == |b.spec.ports|
            && forall i :: 0 <= i < |b.spec.ports| ==>
                 && s.ports[i].port == b.spec.ports[i].targetPort
                 && s.ports[i].targetPort == b.spec.ports[i].relayPort.value
                 && (s.ports[i].protocol.UDP? <==> b.spec.ports[i].protocol.UdpProtocol?)
                 && (b.spec.ports[i].name != "" ==> s.ports[i].name == b.spec.ports[i].name)
  {
    RelaySliceSends(b, c.services[who.service], who.service);
  }

  lemma SettledUnchanged(b: Binding, who: Subject, c: Shared)
    requires PreviewSettled(b, who, c)
    ensures var s := PreviewForm(c.services[who.service], b);
            && c.services[who.service := s] == c.services
            && c.slices[ManagedSlice(who) :=
                 DesiredRelaySlice(b, who.service, s.uid,
                                   Resolved(DesiredPorts(b.spec.ports), b.spec.ports))] == c.slices
  {}

  /** Deleting what the preview owns; a failure on one object does not keep it from trying the other. */
  method DeletePreview(client: ApiServer, b: Binding) returns (r: Result<()>)
    requires Known(client, b) && b.finalizer && client.who.mode == Preview
    modifies client
    ensures Known(client, b) && old(client.history) <= client.history
    ensures r.Ok? ==> Clear(client)
    ensures client.quiet ==> r.Ok? && client.world.binding == old(client.world).binding
  {
    hide Guarantee, Outside, Drifts, Coherent, SnapshotSafe, StatusAllowed;
    r := Ok(());
    var name := ManagedSliceName(b.uid);
    var slice := client.GetSlice(name);
    if slice.Ok? {
      if Lookup(slice.value.annotations, NameKey) == b.name && Lookup(slice.value.annotations, UidKey) == b.uid &&
         ControlledBy(slice.value.owners, b.uid)
      {
        var deleted := client.DeleteManagedSlice(name);
        if deleted.Err? && !deleted.error.NotFound? { r := deleted; }
      }
    } else if !slice.error.NotFound? {
      r := Err(slice.error);
    }
    assert r.Ok? ==> !OwnSlice(client.who, client.world.shared);
    var rest := DeletePreviewService(client, b);
    if rest.Err? { r := rest; }
    if r.Ok? && client.exclusive {
      PreviewGone(client.who, client.base, client.world.shared);
    }
  }

  lemma MarkedIsOwn(client: ApiServer, b: Binding)
    requires Known(client, b) && b.finalizer && client.who.mode == Preview
    requires client.who.service in client.world.shared.services
    ensures var s := client.world.shared.services[client.who.service];
            Marked(s, client.who.uid) ==> Owned(s.annotations, client.who) && ControlledBy(s.owners, b.uid)
  {}

  method DeletePreviewService(client: ApiServer, b: Binding) returns (r: Result<()>)
    requires Known(client, b) && b.finalizer && client.who.mode == Preview
    modifies client
    ensures Known(client, b) && old(client.history) <= client.history
    ensures !OwnSlice(client.who, old(client.world).shared) ==> !OwnSlice(client.who, client.world.shared)
    ensures r.Ok? ==> Unmarked(client.who, client.world.shared)
    ensures client.quiet ==> r.Ok? && client.world.binding == old(client.world).binding
  {
    var name := b.spec.preview.value;
    var service := client.GetService(name);
    if service.Ok? { MarkedIsOwn(client, b); }
    hide Inv, Guarantee, Outside, Drifts, UserStep, Coherent, SnapshotSafe;
    if service.Ok? {
      if Lookup(service.value.annotations, NameKey) == b.name && Lookup(service.value.annotations, UidKey) == b.uid &&
         ControlledBy(service.value.owners, b.uid)
      {
        var deleted := client.DeletePreviewService(name, service.value);
        if deleted.Err? && !deleted.error.NotFound? { return deleted; }
      }
    } else if !service.error.NotFound? {
      return Err(service.error);
    }
    OnlyOwnServiceMarked(client.who, client.exclusive, client.base, client.world);
    r := Ok(());
  }
}
