/** The TrafficBinding resource: its spec, its stored status, and the status each setter intends. */
module Bindings {
  import opened Kube

  datatype Mode = PortForward | Preview | Exchange | Mirror
  datatype Desired = Unspecified | Active | Paused | OtherState
  datatype TargetKind = PodTarget | ServiceTarget | OtherTarget
  datatype Transport = NoProtocol | TcpProtocol | UdpProtocol | OtherProtocol

  datatype Target = Target(kind: TargetKind, name: string)

  // `parses` is ParseIP of the trimmed address, `ipv6` says the address as written is an IPv6 literal.
  datatype Relay = Relay(address: string, parses: bool, ipv6: bool)

  datatype TrafficPort = TrafficPort(
    name: string, targetPort: int, relayPort: Option<int>, localPort: Option<int>, protocol: Transport)

  datatype Identity = Identity(sessionId: string, taskId: string, identityId: string, sessionGeneration: int)

  datatype Spec = Spec(
    desired: Desired, mode: Mode, identity: Identity, target: Option<Target>, relay: Option<Relay>,
    preview: Option<string>, ports: seq<TrafficPort>)

  datatype Snapshot = Snapshot(
    serviceName: string, serviceUid: string, selector: map<string, string>,
    slices: seq<NamedSlice>, hadSlices: bool, subsets: seq<Subset>, hadEndpoints: bool)

  datatype Phase =
    | NoPhase | Pending | Reconciling | Ready | Degraded | Pausing | PausedPhase | Restoring | Restored

  datatype Cond = Absent | Yes | No
  datatype Conditions = Conditions(
    accepted: Cond, progressing: Cond, ready: Cond, degraded: Cond, paused: Cond, restored: Cond)

  datatype Status = Status(
    observed: int, phase: Phase, serviceName: string, serviceClusterIP: string,
    snapshot: Option<Snapshot>, conditions: Conditions)

  datatype Binding = Binding(
    name: string, uid: string, generation: int, deleting: bool, finalizer: bool, spec: Spec, status: Status)

  predicate Intercepting(mode: Mode) { mode.Exchange? || mode.Mirror? }

  /** Phases in which nothing in the cluster belongs to the binding. */
  predicate Resting(phase: Phase) {
    phase.NoPhase? || phase.Pending? || phase.PausedPhase? || phase.Restored?
  }

  predicate WantsPause(b: Binding) { b.spec.desired.Paused? }

  predicate AwaitingRelay(spec: Spec) {
    spec.mode != PortForward && spec.relay.None?
  }

  /** The shape rules the CRD enforces on every stored spec. */
  predicate Shaped(spec: Spec) {
    match spec.mode
    case PortForward => spec.target.Some? && spec.relay.None? && spec.preview.None? && |spec.ports| == 1 &&
                        spec.ports[0].relayPort.None?
    case Preview => spec.target.None? && spec.preview.Some? && RelayComplete(spec)
    case _ => spec.target.Some? && spec.target.value.kind == ServiceTarget && spec.preview.None? && RelayComplete(spec)
  }

  predicate RelayComplete(spec: Spec) {
    forall i :: 0 <= i < |spec.ports| ==> spec.ports[i].relayPort.Some? == spec.relay.Some?
  }

  /** The one Service a binding concerns: its target, or the Service a preview creates. */
  function ServiceOf(spec: Spec): string
    requires Shaped(spec)
  {
    if spec.mode == Preview then spec.preview.value else spec.target.value.name
  }

  function ModeText(mode: Mode): string {
    match mode
    case PortForward => "PortForward"
    case Preview => "Preview"
    case Exchange => "Exchange"
    case Mirror => "Mirror"
  }

  // The label value is a digest of the UID; any injective digest does.
  function LabelValue(uid: string): string { uid }
  function ManagedSliceName(uid: string): string { "kubeloop-" + LabelValue(uid) }

  // ----- statuses written by the setters -----

  function LifecycleStatus(s: Status, generation: int, phase: Phase, progressing: Cond): Status {
    s.(observed := generation, phase := phase,
       conditions := Conditions(Yes, progressing, No, No, No, No))
  }

  function SnapshotStatus(s: Status, generation: int, snapshot: Snapshot): Status {
    s.(snapshot := Some(snapshot), phase := Reconciling, observed := generation,
       serviceName := snapshot.serviceName,
       conditions := s.conditions.(ready := No, progressing := Yes))
  }

  function ReadyStatus(s: Status, generation: int): Status {
    s.(observed := generation, phase := Ready, conditions := Conditions(Yes, No, Yes, No, No, No))
  }

  function DegradedStatus(s: Status, generation: int, invalidSpec: bool): Status {
    s.(observed := generation, phase := Degraded,
       conditions := Conditions(if invalidSpec then No else Yes, No, No, Yes, No, s.conditions.restored))
  }

  function FailedStatus(s: Status, generation: int, phase: Phase): Status {
    s.(observed := generation, phase := phase, conditions := Conditions(Yes, No, No, Yes, No, No))
  }

  function PausedStatus(s: Status, generation: int): Status {
    s.(observed := generation, phase := PausedPhase, serviceClusterIP := "", snapshot := None,
       conditions := Conditions(Yes, No, No, No, Yes, No))
  }

  function RestoredStatus(s: Status, generation: int): Status {
    s.(observed := generation, phase := Restored, conditions := Conditions(Yes, No, No, No, No, Yes))
  }

  /** Merge patch on the status: a field the two sides agree on keeps what is stored; the condition
      list is replaced as a whole. */
  function MergeStatus(stored: Status, before: Status, after: Status): Status {
    Status(
      MergeField(stored.observed, before.observed, after.observed),
      MergeField(stored.phase, before.phase, after.phase),
      MergeField(stored.serviceName, before.serviceName, after.serviceName),
      MergeField(stored.serviceClusterIP, before.serviceClusterIP, after.serviceClusterIP),
      MergeField(stored.snapshot, before.snapshot, after.snapshot),
      MergeField(stored.conditions, before.conditions, after.conditions))
  }

  /** What the conditions may say in each phase. */
  predicate Coherent(s: Status) {
    && (s.conditions.ready == Yes <==> s.phase == Ready)
    && (s.conditions.paused == Yes <==> s.phase == PausedPhase)
    && (s.conditions.restored == Yes <==> s.phase == Restored)
    && (s.phase == Degraded ==> s.conditions.degraded == Yes)
    && (s.conditions.degraded == Yes ==> s.phase in {Degraded, Pausing, Restoring})
  }
}
