/** What must hold of the cluster in every reachable state, and what each party may do to it. */
module Safety {
  import opened Kube
  import opened Bindings

  // The binding under study; mode and service are immutable workload fields.
  datatype Subject = Subject(name: string, uid: string, mode: Mode, service: string)

  // binding is None once the object is gone.
  datatype World = World(binding: Option<Binding>, shared: Shared)

  datatype Actor = Operator | Others
  datatype Step = Step(actor: Actor, pre: World, post: World)

  // ----- ownership marks -----

  predicate Marked(s: Service, uid: string) { Lookup(s.annotations, UidKey) == uid }

  predicate Foreign(s: Service, uid: string) {
    Lookup(s.annotations, UidKey) != "" && Lookup(s.annotations, UidKey) != uid
  }

  predicate Owned(annotations: Strings, who: Subject) {
    Lookup(annotations, NameKey) == who.name && Lookup(annotations, UidKey) == who.uid
  }

  function ManagedSlice(who: Subject): string { ManagedSliceName(who.uid) }

  predicate OwnSlice(who: Subject, c: Shared) {
    ManagedSlice(who) in c.slices && Owned(c.slices[ManagedSlice(who)].annotations, who)
  }

  /** Something in the cluster is marked as belonging to the binding. */
  predicate Footprint(who: Subject, c: Shared) {
    OwnSlice(who, c) || exists n :: n in c.services && Marked(c.services[n], who.uid)
  }

  // ----- the other parties -----

  /** The operator does not let go of the binding for want of a relay: it has one, or the relay is not looked at. */
  predicate RelayHeld(b: Binding) { b.spec.relay.Some? || b.deleting || WantsPause(b) }

  /** What users and the control plane may do to the stored binding: status, finalizer and workload are not
      theirs, and deletion is final. An intercept that fell back to Pending with its snapshot is not asked to
      pause before it has left Pending; the relay of a preview is withdrawn at rest, in a pause or in a deletion. */
  predicate UserStep(b: Binding, b': Binding) {
    && b'.name == b.name && b'.uid == b.uid && b'.status == b.status && b'.finalizer == b.finalizer
    && b.generation <= b'.generation
    && (b.deleting ==> b'.deleting) && (b'.deleting ==> b.deleting || b.finalizer)
    && b'.spec.mode == b.spec.mode && b'.spec.target == b.spec.target && b'.spec.preview == b.spec.preview
    && (Shaped(b.spec) ==> Shaped(b'.spec))
    && (b.status.snapshot.Some? && b.status.phase.Pending? && !WantsPause(b) ==> !WantsPause(b') || b'.deleting)
    && (b.spec.mode == Preview && RelayHeld(b) && !RelayHeld(b') ==> Resting(b.status.phase))
  }

  /** The same while a pass is under way: an intercept that has no relay, and has not fallen back to Pending yet, is
      not asked to pause. */
  predicate PassStep(b: Binding, b': Binding) {
    && UserStep(b, b')
    && (Intercepting(b.spec.mode) && b.status.snapshot.Some? && !b.status.phase.Pending? && !RelayHeld(b) ==>
          b'.deleting || !WantsPause(b'))
  }

  /** A deleted object without finalizer disappears. */
  predicate BindingStep(b: Option<Binding>, b': Option<Binding>) {
    match b
    case None => b'.None?
    case Some(x) => if b'.Some? then UserStep(x, b'.value) else !x.finalizer
  }

  predicate BindingDrift(b: Option<Binding>, b': Option<Binding>) {
    BindingStep(b, b') && (b.Some? && b'.Some? ==> PassStep(b.value, b'.value))
  }

  predicate SameMarks(s: Service, s': Service) {
    && s'.uid == s.uid && s'.owners == s.owners
    && !Changed(s.annotations, s'.annotations, UidKey) && !Changed(s.annotations, s'.annotations, NameKey)
  }

  predicate OwnSliceKept(who: Subject, c: Shared, c': Shared) {
    OwnSlice(who, c') ==>
      OwnSlice(who, c) && c'.slices[ManagedSlice(who)].owners == c.slices[ManagedSlice(who)].owners
  }

  /** What may happen between two API calls of one reconcile. Services may be edited or deleted but not
      replaced, and their ownership annotations are left alone; slices and Endpoints are open, except
      that nobody forges the managed slice. `exclusive` means no other writer of shared objects at all. */
  predicate Drifts(who: Subject, exclusive: bool, w: World, w': World) {
    && BindingDrift(w.binding, w'.binding)
    && (forall n :: n in w'.shared.services ==>
          n in w.shared.services && SameMarks(w.shared.services[n], w'.shared.services[n]))
    && OwnSliceKept(who, w.shared, w'.shared)
    && (exclusive ==> w'.shared == w.shared)
  }

  /** What may happen between two reconciles: Services may also be created or replaced, and other
      bindings may claim or release any Service that does not carry this binding's mark. */
  predicate Outside(who: Subject, exclusive: bool, w: World, w': World) {
    && BindingStep(w.binding, w'.binding)
    && (forall n :: n in w'.shared.services && Marked(w'.shared.services[n], who.uid) ==>
          n in w.shared.services && SameMarks(w.shared.services[n], w'.shared.services[n]))
    && OwnSliceKept(who, w.shared, w'.shared)
    && (exclusive ==> w'.shared == w.shared)
  }

  // ----- the safety invariant -----

  /** The snapshot holds the binding's own managed slice. */
  predicate Records(who: Subject, snap: Snapshot) {
    exists i :: 0 <= i < |snap.slices| && snap.slices[i].name == ManagedSlice(who) &&
                Owned(snap.slices[i].slice.annotations, who)
  }

  /** A binding that holds a snapshot keeps it and its finalizer until it is at rest. It may have to wait for a
      new relay in Pending, but then it is not to be paused from there. */
  predicate SnapshotSafe(who: Subject, b: Binding) {
    b.status.snapshot.Some? ==>
      && !Records(who, b.status.snapshot.value)
      && Intercepting(who.mode) && b.finalizer
      && !b.status.phase.NoPhase? && !b.status.phase.PausedPhase?
      && (b.status.phase.Pending? ==> b.deleting || !WantsPause(b))
      && b.status.snapshot.value.serviceName == who.service
  }

  /** The binding may have marks in the cluster only in this condition. */
  predicate MayMark(who: Subject, b: Binding) {
    && b.finalizer && who.mode != PortForward
    && !b.status.phase.NoPhase? && !b.status.phase.PausedPhase? && !b.status.phase.Restored?
    && (if Intercepting(who.mode) then b.status.snapshot.Some? else RelayHeld(b) && !b.status.phase.Pending?)
  }

  /** Every Service carrying the binding's UID is the one it concerns: for an intercept the very Service
      (same UID) the stored snapshot was taken from, for a preview one the binding controls. */
  predicate MarksLegitimate(who: Subject, b: Binding, c: Shared) {
    && (forall n :: n in c.services && Marked(c.services[n], who.uid) ==>
          && n == who.service
          && (Intercepting(who.mode) ==>
                b.status.snapshot.Some? && b.status.snapshot.value.serviceUid == c.services[n].uid)
          && (who.mode == Preview ==>
              ControlledBy(c.services[n].owners, who.uid) && Owned(c.services[n].annotations, who)))
    && (OwnSlice(who, c) ==> ControlledBy(c.slices[ManagedSlice(who)].owners, who.uid))
  }

  predicate WellFormed(who: Subject, b: Binding) {
    && b.name == who.name && b.uid == who.uid && b.spec.mode == who.mode && Shaped(b.spec)
    && ServiceOf(b.spec) == who.service
    && (b.status.serviceName == "" || b.status.serviceName == who.service)
    && (b.deleting ==> b.finalizer)
    && (!b.finalizer ==> b.status.phase.NoPhase? || b.status.phase.Degraded?)
    && (b.status.phase.Restored? ==> b.deleting)
  }

  predicate BindingSafe(who: Subject, b: Binding, c: Shared) {
    && WellFormed(who, b) && Coherent(b.status) && SnapshotSafe(who, b)
    && (Footprint(who, c) ==> MayMark(who, b))
    && MarksLegitimate(who, b, c)
  }

  predicate Safe(who: Subject, w: World) {
    && who.uid != "" && who.name != ""
    && match w.binding
       case None => !Footprint(who, w.shared)
       case Some(b) => BindingSafe(who, b, w.shared)
  }

  // ----- exact restoration, when nobody else writes the shared objects -----

  /** The cluster as it was before the binding existed: no trace of its keys. */
  predicate Pristine(who: Subject, base: Shared) {
    && ManagedSlice(who) !in base.slices
    && !Footprint(who, base)
    && (Intercepting(who.mode) && who.service in base.services ==>
          forall k :: k in {NameKey, UidKey, ModeKey} ==> k !in base.services[who.service].annotations)
    && (Intercepting(who.mode) && who.service in base.services ==>
          BindingLabel !in base.services[who.service].labels)
    && (who.mode == Preview && who.service in base.services ==>
          !ControlledBy(base.services[who.service].owners, who.uid))
  }

  function Claim(annotations: Strings, who: Subject): Strings {
    annotations[NameKey := who.name][UidKey := who.uid][ModeKey := ModeText(who.mode)]
  }

  /** The intercepted form of a Service. */
  function Hijacked(s: Service, who: Subject): Service {
    s.(selector := map[], annotations := Claim(s.annotations, who))
  }

  predicate DistinctNames(slices: seq<NamedSlice>) {
    forall i, j :: 0 <= i < j < |slices| ==> slices[i].name != slices[j].name
  }

  /** The snapshot is a faithful copy of Service t, its slices and its Endpoints. */
  predicate Faithful(snap: Snapshot, c: Shared, t: string) {
    && t in c.services && snap.serviceName == t
    && snap.serviceUid == c.services[t].uid && snap.selector == c.services[t].selector
    && (forall i :: 0 <= i < |snap.slices| ==>
          && snap.slices[i].name in c.slices && Labelled(c.slices[snap.slices[i].name], t)
          && snap.slices[i].slice == c.slices[snap.slices[i].name])
    && (forall n :: n in c.slices && Labelled(c.slices[n], t) ==>
          exists i :: 0 <= i < |snap.slices| && snap.slices[i].name == n)
    && snap.hadSlices == (|snap.slices| > 0)
    && snap.hadEndpoints == (t in c.endpoints)
    && (t in c.endpoints ==> snap.subsets == c.endpoints[t])
  }

  predicate ServicesPart(who: Subject, base: map<string, Service>, now: map<string, Service>) {
    && who.service in base && now.Keys == base.Keys
    && (forall n :: n in base && n != who.service ==> now[n] == base[n])
    && (now[who.service] == base[who.service] || now[who.service] == Hijacked(base[who.service], who))
  }

  predicate EndpointsPart(t: string, base: map<string, seq<Subset>>, now: map<string, seq<Subset>>) {
    && (forall n :: n in now ==> n in base && now[n] == base[n])
    && (forall n :: n in base && n != t ==> n in now)
  }

  predicate SlicesPart(who: Subject, base: map<string, Slice>, now: map<string, Slice>) {
    && (forall n :: n in now && n != ManagedSlice(who) ==> n in base && now[n] == base[n])
    && (forall n :: n in base && !Labelled(base[n], who.service) ==> n in now)
    && (ManagedSlice(who) in now ==> Relaying(who, now[ManagedSlice(who)]))
  }

  predicate Relaying(who: Subject, s: Slice) {
    Owned(s.annotations, who) && ControlledBy(s.owners, who.uid) && Labelled(s, who.service)
  }

  /** Any mixture of finished and half-finished interceptions and restores of the Service. */
  predicate PartlyHijacked(who: Subject, base: Shared, c: Shared) {
    && ServicesPart(who, base.services, c.services)
    && EndpointsPart(who.service, base.endpoints, c.endpoints)
    && SlicesPart(who, base.slices, c.slices)
  }

  /** The baseline plus at most the preview Service and its slice, both the binding's own. */
  predicate PartlyPreviewed(who: Subject, base: Shared, c: Shared) {
    && c.endpoints == base.endpoints
    && c.services - {who.service} == base.services - {who.service}
    && c.slices - {ManagedSlice(who)} == base.slices
    && (who.service in c.services ==>
          Marked(c.services[who.service], who.uid) ||
          (who.service in base.services && c.services[who.service] == base.services[who.service]))
    && (who.service in base.services ==>
        who.service in c.services && c.services[who.service] == base.services[who.service])
    && (ManagedSlice(who) in c.slices ==> OwnSlice(who, c))
  }

  /** Between the baseline and the present there is only this binding's unfinished work. */
  predicate Restorable(who: Subject, base: Shared, w: World) {
    match w.binding
    case None => w.shared == base
    case Some(b) =>
      if Intercepting(who.mode) then
        && (b.status.snapshot.None? || b.status.phase.Restored? ==> w.shared == base)
        && (b.status.snapshot.Some? ==>
              && Faithful(b.status.snapshot.value, base, who.service)
              && DistinctNames(b.status.snapshot.value.slices)
              && PartlyHijacked(who, base, w.shared))
      else if who.mode == Preview then PartlyPreviewed(who, base, w.shared)
      else w.shared == base
  }

  /** The whole invariant of the run. */
  predicate Inv(who: Subject, exclusive: bool, base: Shared, w: World) {
    && Safe(who, w)
    && (exclusive ==> Pristine(who, base) && Restorable(who, base, w))
  }

  // ----- facts an operator holds while it works on a local copy -----

  /** The stored binding is the local copy plus user steps. */
  predicate Synced(b: Binding, w: World) {
    match w.binding
    case None => !b.finalizer
    case Some(x) => UserStep(b, x)
  }

  predicate Unmarked(who: Subject, c: Shared) {
    forall n :: n in c.services ==> !Marked(c.services[n], who.uid)
  }

  predicate NotForeign(who: Subject, c: Shared) {
    who.service in c.services ==> !Foreign(c.services[who.service], who.uid)
  }

  /** The local copy entitles its holder to write shared objects. */
  predicate Licensed(who: Subject, b: Binding, w: World) {
    Synced(b, w) && WellFormed(who, b) && MayMark(who, b)
  }

  /** What a caller may rely on across a call that wrote nothing. */
  ghost predicate Idle(who: Subject, exclusive: bool, w: World, w': World) {
    && BindingStep(w.binding, w'.binding)
    && (forall b :: Synced(b, w) ==> Synced(b, w'))
    && (who.service in w'.shared.services ==>
          && who.service in w.shared.services
          && SameMarks(w.shared.services[who.service], w'.shared.services[who.service]))
    && (Unmarked(who, w.shared) ==> Unmarked(who, w'.shared))
    && (!OwnSlice(who, w.shared) ==> !OwnSlice(who, w'.shared))
    && (NotForeign(who, w.shared) ==> NotForeign(who, w'.shared))
    && (exclusive ==> w'.shared == w.shared)
  }

  lemma DriftsIsIdle(who: Subject, exclusive: bool, w: World, w': World)
    requires Drifts(who, exclusive, w, w')
    ensures Idle(who, exclusive, w, w')
  {
    forall n | n in w'.shared.services
      ensures Lookup(w'.shared.services[n].annotations, UidKey) == Lookup(w.shared.services[n].annotations, UidKey)
    {}
  }

  /** The Services of other names are the same. */
  ghost predicate SameElsewhere(who: Subject, c: Shared, c': Shared) {
    forall n :: n != who.service ==>
      (n in c.services <==> n in c'.services) && (n in c.services ==> c.services[n] == c'.services[n])
  }

  // ----- what the operator may do in one write -----

  /** The stored snapshot holds this slice. */
  predicate Saved(b: Option<Binding>, n: string, s: Slice) {
    && b.Some? && b.value.status.snapshot.Some?
    && exists i :: 0 <= i < |b.value.status.snapshot.value.slices| &&
                   b.value.status.snapshot.value.slices[i] == NamedSlice(n, s)
  }

  /** A slice that is created or changed is the managed one, or one of an intercept's snapshot, as saved there. */
  ghost predicate SlicesFramed(who: Subject, pre: World, post: World) {
    forall n :: n in post.shared.slices &&
                (n in pre.shared.slices ==> post.shared.slices[n] != pre.shared.slices[n]) ==>
      n == ManagedSlice(who) || (Intercepting(who.mode) && Saved(pre.binding, n, post.shared.slices[n]))
  }

  /** Exclusion: a single write of the operator, on behalf of `who`.
      Services other than its own are never touched; a Service another binding owns is left alone with
      its Endpoints and all slices but the managed one; an intercept only ever writes the Service its
      snapshot was taken from; ownership marks it adds are its own; slices it writes are its own or those it
      saved; and the finalizer goes only when nothing of the binding is left. */
  ghost predicate Guarantee(who: Subject, pre: World, post: World) {
    && (forall n :: n != who.service ==>
          && (n in pre.shared.services <==> n in post.shared.services)
          && (n in pre.shared.services ==> pre.shared.services[n] == post.shared.services[n])
          && (n in pre.shared.endpoints <==> n in post.shared.endpoints)
          && (n in pre.shared.endpoints ==> pre.shared.endpoints[n] == post.shared.endpoints[n]))
    && (Intercepting(who.mode) && who.service in pre.shared.services &&
        Foreign(pre.shared.services[who.service], who.uid) ==>
          && post.shared.services == pre.shared.services
          && post.shared.endpoints == pre.shared.endpoints
          && post.shared.slices - {ManagedSlice(who)} == pre.shared.slices - {ManagedSlice(who)})
    && (Intercepting(who.mode) && post.shared.services != pre.shared.services ==>
          && who.service in pre.shared.services && who.service in post.shared.services
          && pre.binding.Some? && pre.binding.value.status.snapshot.Some?
          && pre.shared.services[who.service].uid == pre.binding.value.status.snapshot.value.serviceUid)
    && (forall n :: n in post.shared.services &&
                    (n in pre.shared.services ==> post.shared.services[n] != pre.shared.services[n]) ==>
          !Foreign(post.shared.services[n], who.uid))
    && SlicesFramed(who, pre, post)
    && (pre.binding.Some? && pre.binding.value.finalizer && (post.binding.None? || !post.binding.value.finalizer) ==>
          !Footprint(who, pre.shared) && post.shared == pre.shared)
  }

  ghost predicate StepOk(who: Subject, exclusive: bool, base: Shared, s: Step) {
    && Inv(who, exclusive, base, s.pre) && Inv(who, exclusive, base, s.post)
    && match s.actor
       case Operator => Guarantee(who, s.pre, s.post)
       case Others => Outside(who, exclusive, s.pre, s.post)
  }

  // ----- the other parties cannot break the invariant -----

  lemma DriftsIsOutside(who: Subject, exclusive: bool, w: World, w': World)
    requires Drifts(who, exclusive, w, w')
    ensures Outside(who, exclusive, w, w')
  {}

  lemma MarksSurvive(who: Subject, c: Shared, c': Shared)
    requires forall n :: n in c'.services && Marked(c'.services[n], who.uid) ==>
               n in c.services && SameMarks(c.services[n], c'.services[n])
    requires OwnSliceKept(who, c, c')
    requires who.uid != ""
    ensures Footprint(who, c') ==> Footprint(who, c)
  {
    if Footprint(who, c') && !OwnSlice(who, c') {
      var n :| n in c'.services && Marked(c'.services[n], who.uid);
      assert Marked(c.services[n], who.uid);
    }
  }

  lemma OutsideKeepsSafe(who: Subject, exclusive: bool, w: World, w': World)
    requires Safe(who, w) && Outside(who, exclusive, w, w')
    ensures Safe(who, w')
  {
    MarksSurvive(who, w.shared, w'.shared);
    if w'.binding.Some? {
      var b, b' := w.binding.value, w'.binding.value;
      forall n | n in w'.shared.services && Marked(w'.shared.services[n], who.uid)
        ensures Marked(w.shared.services[n], who.uid) {}
    }
  }

  /** A preview without any mark has left the cluster exactly as it found it. */
  lemma PreviewGone(who: Subject, base: Shared, c: Shared)
    requires PartlyPreviewed(who, base, c) && !Footprint(who, c)
    ensures c == base
  {
    assert ManagedSlice(who) !in c.slices;
    assert c.slices == c.slices - {ManagedSlice(who)};
    forall n ensures (n in c.services) == (n in base.services)
      ensures n in c.services ==> c.services[n] == base.services[n]
    {
      if n != who.service {
        assert (n in c.services) == (n in c.services - {who.service});
        assert (n in base.services) == (n in base.services - {who.service});
        if n in c.services {
          assert (c.services - {who.service})[n] == (base.services - {who.service})[n];
        }
      }
    }
    assert c.services.Keys == base.services.Keys;
    assert c.services == base.services;
  }

  /** Stability: users, other controllers and other bindings, within their rights, keep the invariant. */
  lemma OutsideKeepsInv(who: Subject, exclusive: bool, base: Shared, w: World, w': World)
    requires Inv(who, exclusive, base, w) && Outside(who, exclusive, w, w')
    ensures Inv(who, exclusive, base, w')
  {
    OutsideKeepsSafe(who, exclusive, w, w');
    if exclusive && w.binding.Some? && w'.binding.None? && who.mode == Preview {
      PreviewGone(who, base, w.shared);
    }
  }
}
