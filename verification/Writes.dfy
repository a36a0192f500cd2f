/** Every kind of write the operator issues, the condition under which it is allowed, and the proof
    that an allowed write keeps the invariant and the guarantee. */
module Writes {
  import opened Kube
  import opened Bindings
  import opened Safety

  function WithStatus(w: World, s: Status): World
    requires w.binding.Some?
  {
    w.(binding := Some(w.binding.value.(status := s)))
  }

  function WithService(w: World, n: string, s: Service): World {
    w.(shared := w.shared.(services := w.shared.services[n := s]))
  }

  function WithoutService(w: World, n: string): World {
    w.(shared := w.shared.(services := w.shared.services - {n}))
  }

  function WithSlice(w: World, n: string, s: Slice): World {
    w.(shared := w.shared.(slices := w.shared.slices[n := s]))
  }

  function WithoutSlice(w: World, n: string): World {
    w.(shared := w.shared.(slices := w.shared.slices - {n}))
  }

  function WithEndpoints(w: World, n: string, e: seq<Subset>): World {
    w.(shared := w.shared.(endpoints := w.shared.endpoints[n := e]))
  }

  function WithoutEndpoints(w: World, n: string): World {
    w.(shared := w.shared.(endpoints := w.shared.endpoints - {n}))
  }

  /** The finalizer list is patched; an object being deleted vanishes with its last finalizer. */
  function WithFinalizer(w: World, present: bool): World
    requires w.binding.Some?
  {
    if !present && w.binding.value.deleting then w.(binding := None)
    else w.(binding := Some(w.binding.value.(finalizer := present)))
  }

  // ----- status -----

  predicate NewSnapshot(who: Subject, exclusive: bool, base: Shared, w: World, snap: Snapshot) {
    && w.binding.Some?
    && w.binding.value.status.snapshot.None? && Intercepting(who.mode)
    && w.binding.value.finalizer
    && !Resting(w.binding.value.status.phase)
    && snap.serviceName == who.service && !Records(who, snap)
    && (exclusive ==> Faithful(snap, base, who.service) && DistinctNames(snap.slices) && w.shared == base)
  }

  /** An intercept keeps its snapshot while it waits for a new relay. */
  predicate Waiting(s: Status) { s.phase.Pending? && s.snapshot.Some? }

  predicate MayWait(b: Binding) { b.deleting || !WantsPause(b) }

  /** What must be known of the stored binding before the call, for it still to be so when the write takes effect. */
  predicate WillWait(b: Binding) { MayWait(b) && (b.deleting || b.status.phase.Pending? || b.spec.relay.None?) }

  predicate StatusAllowed(who: Subject, exclusive: bool, base: Shared, w: World, s: Status) {
    StatusFits(who, exclusive, base, w, s) && (w.binding.Some? && Waiting(s) ==> WillWait(w.binding.value))
  }

  predicate StatusFits(who: Subject, exclusive: bool, base: Shared, w: World, s: Status) {
    w.binding.Some? ==>
      var b := w.binding.value;
      && Coherent(s) && (s.serviceName == "" || s.serviceName == who.service)
      && (!b.finalizer ==> s.phase.NoPhase? || s.phase.Degraded?)
      && (s.phase.Restored? ==> b.deleting && (exclusive && Intercepting(who.mode) ==> w.shared == base))
      && (Resting(s.phase) && !Waiting(s) ==> Unmarked(who, w.shared) && !OwnSlice(who, w.shared))
      && (s.snapshot.Some? ==> !s.phase.NoPhase? && !s.phase.PausedPhase?)
      && (Waiting(s) ==> s.snapshot == b.status.snapshot && MayWait(b))
      && (b.status.phase.Restored? && s.snapshot.Some? ==> s.phase.Restored?)
      && (|| s.snapshot == b.status.snapshot
          || (s.snapshot.None? && Unmarked(who, w.shared) && !OwnSlice(who, w.shared) &&
              (exclusive ==> w.shared == base))
          || (s.snapshot.Some? && NewSnapshot(who, exclusive, base, w, s.snapshot.value)))
  }

  lemma StatusAllowedDrifts(who: Subject, exclusive: bool, base: Shared, w: World, w': World, s: Status)
    requires Inv(who, exclusive, base, w) && Drifts(who, exclusive, w, w')
    requires StatusAllowed(who, exclusive, base, w, s)
    ensures StatusFits(who, exclusive, base, w', s)
  {
    DriftsIsIdle(who, exclusive, w, w');
  }

  lemma StatusWrite(who: Subject, exclusive: bool, base: Shared, w: World, s: Status)
    requires Inv(who, exclusive, base, w) && w.binding.Some?
    requires StatusFits(who, exclusive, base, w, s)
    ensures Inv(who, exclusive, base, WithStatus(w, s)) && Guarantee(who, w, WithStatus(w, s))
  {}

  // ----- finalizer -----

  lemma FinalizerAdded(who: Subject, exclusive: bool, base: Shared, w: World)
    requires Inv(who, exclusive, base, w) && w.binding.Some?
    ensures Inv(who, exclusive, base, WithFinalizer(w, true)) && Guarantee(who, w, WithFinalizer(w, true))
  {}

  lemma FinalizerRemoved(who: Subject, exclusive: bool, base: Shared, w: World)
    requires Inv(who, exclusive, base, w) && w.binding.Some?
    requires w.binding.value.status.phase.Restored?
    ensures Inv(who, exclusive, base, WithFinalizer(w, false)) && Guarantee(who, w, WithFinalizer(w, false))
  {
    if exclusive && who.mode == Preview {
      PreviewGone(who, base, w.shared);
    }
  }

  // ----- the Service -----

  /** Removing the operator's keys. */
  function Released(annotations: Strings): Strings { annotations - {NameKey, UidKey, ModeKey} }

  /** An edit of the binding's Service that its local copy allows. */
  predicate ServiceEdit(who: Subject, b: Binding, before: Service, after: Service) {
    && after.uid == before.uid && after.owners == before.owners && after.clusterIP == before.clusterIP
    && (after.annotations == Claim(before.annotations, who) || after.annotations == Released(before.annotations))
    && (Intercepting(who.mode) ==>
          && b.status.snapshot.Some? && before.uid == b.status.snapshot.value.serviceUid
          && !Foreign(before, who.uid))
    && (who.mode == Preview ==>
        after.annotations == Claim(before.annotations, who) && ControlledBy(before.owners, who.uid))
  }

  lemma MergedMarks(who: Subject, stored: Service, before: Service, after: Service)
    requires SameMarks(before, stored)
    ensures var s := MergeService(stored, before, after);
            && !Changed(s.annotations, after.annotations, UidKey)
            && !Changed(s.annotations, after.annotations, NameKey)
            && s.uid == stored.uid && s.owners == stored.owners
  {
    MergeMapKey(stored.annotations, before.annotations, after.annotations, UidKey);
    MergeMapKey(stored.annotations, before.annotations, after.annotations, NameKey);
  }

  /** The edit as it lands on whatever is stored. */
  function Edited(who: Subject, w: World, before: Service, after: Service): World
    requires who.service in w.shared.services
  {
    WithService(w, who.service, MergeService(w.shared.services[who.service], before, after))
  }

  predicate EditReady(who: Subject, b: Binding, w: World, before: Service, after: Service) {
    && Licensed(who, b, w)
    && who.service in w.shared.services && SameMarks(before, w.shared.services[who.service])
    && ServiceEdit(who, b, before, after)
  }

  lemma ServiceWriteSafe(who: Subject, w: World, b: Binding, before: Service, after: Service)
    requires Safe(who, w) && EditReady(who, b, w, before, after)
    ensures Safe(who, Edited(who, w, before, after))
  {
    MergedMarks(who, w.shared.services[who.service], before, after);
  }

  /** Only the binding's own Service changes, and does not become another's. */
  lemma OwnServiceChanged(who: Subject, w: World, s: Service)
    requires who.service in w.shared.services && !Foreign(s, who.uid)
    requires Intercepting(who.mode) ==>
               && NotForeign(who, w.shared) && w.binding.Some? && w.binding.value.status.snapshot.Some?
               && w.shared.services[who.service].uid == w.binding.value.status.snapshot.value.serviceUid
    ensures Guarantee(who, w, WithService(w, who.service, s))
  {
  }

  lemma ServiceWriteGuarantee(who: Subject, w: World, b: Binding, before: Service, after: Service)
    requires Safe(who, w) && EditReady(who, b, w, before, after)
    ensures Guarantee(who, w, Edited(who, w, before, after))
  {
    hide Guarantee;
    MergedMarks(who, w.shared.services[who.service], before, after);
    OwnServiceChanged(who, w, MergeService(w.shared.services[who.service], before, after));
  }

  lemma HijackedServiceStays(who: Subject, base: Shared, c: Shared, s: Service)
    requires PartlyHijacked(who, base, c)
    requires s == base.services[who.service] || s == Hijacked(base.services[who.service], who)
    ensures PartlyHijacked(who, base, c.(services := c.services[who.service := s]))
  {
    assert c.services[who.service := s].Keys == c.services.Keys;
  }

  lemma ServiceWriteRestorable(who: Subject, base: Shared, w: World, b: Binding, before: Service, after: Service)
    requires Pristine(who, base) && Restorable(who, base, w) && EditReady(who, b, w, before, after)
    requires w.shared.services[who.service] == before
    requires Intercepting(who.mode) ==>
               who.service in base.services &&
               (after == base.services[who.service] || after == Hijacked(base.services[who.service], who))
    ensures Restorable(who, base, Edited(who, w, before, after))
  {
    MergeServiceUnraced(before, after);
    if who.mode == Preview {
      assert Marked(after, who.uid);
      PreviewServiceStays(who, base, w.shared, after);
    } else {
      HijackedServiceStays(who, base, w.shared, after);
    }
  }

  lemma ServiceWrite(who: Subject, exclusive: bool, base: Shared, w: World, b: Binding, before: Service, after: Service)
    requires Inv(who, exclusive, base, w) && EditReady(who, b, w, before, after)
    requires exclusive ==> w.shared.services[who.service] == before
    requires exclusive && Intercepting(who.mode) ==>
               who.service in base.services &&
               (after == base.services[who.service] || after == Hijacked(base.services[who.service], who))
    ensures Inv(who, exclusive, base, Edited(who, w, before, after)) && Guarantee(who, w, Edited(who, w, before, after))
  {
    ServiceWriteSafe(who, w, b, before, after);
    ServiceWriteGuarantee(who, w, b, before, after);
    if exclusive { ServiceWriteRestorable(who, base, w, b, before, after); }
  }

  /** No Service but the binding's own can carry its mark. */
  lemma OnlyOwnServiceMarked(who: Subject, exclusive: bool, base: Shared, w: World)
    requires Inv(who, exclusive, base, w)
    requires who.service in w.shared.services ==> !Marked(w.shared.services[who.service], who.uid)
    ensures Unmarked(who, w.shared)
  {
    if w.binding.None? {
      forall n | n in w.shared.services ensures !Marked(w.shared.services[n], who.uid) {}
    }
  }

  /** The effect of an edit, as far as its issuer can tell when others may have edited too. */
  lemma ServiceWriteEffect(who: Subject, exclusive: bool, base: Shared, w: World, b: Binding, before: Service,
                           after: Service)
    requires EditReady(who, b, w, before, after) && Inv(who, exclusive, base, Edited(who, w, before, after))
    requires who.mode != PortForward
    ensures var w' := Edited(who, w, before, after);
            && Licensed(who, b, w') && NotForeign(who, w'.shared)
            && (after.annotations == Released(before.annotations) ==> Unmarked(who, w'.shared))
  {
    hide Restorable, Pristine, Guarantee;
    MergedMarks(who, w.shared.services[who.service], before, after);
    var s := Edited(who, w, before, after).shared.services[who.service];
    assert Lookup(s.annotations, UidKey) == Lookup(after.annotations, UidKey);
    if after.annotations == Released(before.annotations) {
      assert Lookup(s.annotations, UidKey) == "";
      assert who.uid != "";
      OnlyOwnServiceMarked(who, exclusive, base, Edited(who, w, before, after));
    }
  }

  lemma PreviewServiceStays(who: Subject, base: Shared, c: Shared, s: Service)
    requires Pristine(who, base) && PartlyPreviewed(who, base, c) && who.mode == Preview
    requires Marked(s, who.uid)
    requires who.service in base.services ==>
               who.service in c.services && ControlledBy(c.services[who.service].owners, who.uid)
    ensures PartlyPreviewed(who, base, c.(services := c.services[who.service := s]))
  {
    assert c.services[who.service := s] - {who.service} == c.services - {who.service};
  }

  lemma PreviewServiceCreated(who: Subject, exclusive: bool, base: Shared, w: World, b: Binding, s: Service)
    requires Inv(who, exclusive, base, w) && Licensed(who, b, w) && who.mode == Preview
    requires who.service !in w.shared.services
    requires Owned(s.annotations, who) && ControlledBy(s.owners, who.uid)
    ensures var w' := WithService(w, who.service, s);
            Inv(who, exclusive, base, w') && Guarantee(who, w, w')
  {
    if exclusive {
      PreviewServiceStays(who, base, w.shared, s);
    }
  }

  lemma PreviewServiceDeleted(who: Subject, exclusive: bool, base: Shared, w: World)
    requires Inv(who, exclusive, base, w) && w.binding.Some? && who.mode == Preview
    requires who.service in w.shared.services && Owned(w.shared.services[who.service].annotations, who)
    ensures var w' := WithoutService(w, who.service);
            Inv(who, exclusive, base, w') && Guarantee(who, w, w')
  {
    var w' := WithoutService(w, who.service);
    assert Footprint(who, w.shared);
    if exclusive {
      assert w'.shared.services - {who.service} == w.shared.services - {who.service};
    }
  }

  // ----- EndpointSlices and Endpoints -----

  /** Writes that leave the binding and all Services alone. */
  lemma ServicesUntouched(who: Subject, w: World, w': World)
    requires Safe(who, w) && w'.binding == w.binding && w'.shared.services == w.shared.services
    requires OwnSlice(who, w'.shared) ==>
               && w.binding.Some? && MayMark(who, w.binding.value)
               && ControlledBy(w'.shared.slices[ManagedSlice(who)].owners, who.uid)
    requires forall n :: n != who.service ==>
               && (n in w.shared.endpoints <==> n in w'.shared.endpoints)
               && (n in w.shared.endpoints ==> w.shared.endpoints[n] == w'.shared.endpoints[n])
    requires NotForeign(who, w.shared) || !Intercepting(who.mode) ||
               (w'.shared.endpoints == w.shared.endpoints &&
                w'.shared.slices - {ManagedSlice(who)} == w.shared.slices - {ManagedSlice(who)})
    requires SlicesFramed(who, w, w')
    ensures Safe(who, w') && Guarantee(who, w, w')
  {
    if Footprint(who, w'.shared) && !OwnSlice(who, w'.shared) {
      assert Footprint(who, w.shared);
    }
  }

  /** The stored binding of a licensed caller is in the middle of its work. */
  lemma LicensedIsBusy(who: Subject, b: Binding, w: World)
    requires Licensed(who, b, w)
    ensures w.binding.Some? && MayMark(who, w.binding.value) && w.binding.value.status == b.status
  {}

  lemma StillRestorable(who: Subject, base: Shared, w: World, w': World)
    requires Restorable(who, base, w) && w'.binding == w.binding && w.binding.Some?
    requires MayMark(who, w.binding.value)
    requires Intercepting(who.mode) && PartlyHijacked(who, base, w.shared) ==> PartlyHijacked(who, base, w'.shared)
    requires who.mode == Preview && PartlyPreviewed(who, base, w.shared) ==> PartlyPreviewed(who, base, w'.shared)
    ensures Restorable(who, base, w')
  {}

  predicate SliceEdit(who: Subject, exclusive: bool, base: Shared, w: World, n: string, s: Slice) {
    if n == ManagedSlice(who) then
      && (Owned(s.annotations, who) ==> ControlledBy(s.owners, who.uid))
      && (exclusive ==> Owned(s.annotations, who))
      && (exclusive && Intercepting(who.mode) ==> Labelled(s, who.service))
    else
      && Intercepting(who.mode) && NotForeign(who, w.shared) && Saved(w.binding, n, s)
      && (exclusive ==> n in base.slices && base.slices[n] == s)
  }

  lemma SlicesPartPut(who: Subject, base: map<string, Slice>, now: map<string, Slice>, n: string, s: Slice)
    requires SlicesPart(who, base, now)
    requires if n == ManagedSlice(who) then Relaying(who, s) && n !in base else n in base && base[n] == s
    ensures SlicesPart(who, base, now[n := s])
  {}

  lemma SliceWritePreviewed(who: Subject, base: Shared, w: World, n: string, s: Slice)
    requires PartlyPreviewed(who, base, w.shared) && who.mode == Preview && SliceEdit(who, true, base, w, n, s)
    ensures PartlyPreviewed(who, base, WithSlice(w, n, s).shared)
  {
    assert WithSlice(w, n, s).shared.slices - {n} == w.shared.slices - {n};
  }

  lemma SliceWrite(who: Subject, exclusive: bool, base: Shared, w: World, b: Binding, n: string, s: Slice)
    requires Inv(who, exclusive, base, w) && Licensed(who, b, w)
    requires SliceEdit(who, exclusive, base, w, n, s)
    ensures Inv(who, exclusive, base, WithSlice(w, n, s)) && Guarantee(who, w, WithSlice(w, n, s))
  {
    var w' := WithSlice(w, n, s);
    LicensedIsBusy(who, b, w);
    if n == ManagedSlice(who) {
      assert w'.shared.slices - {ManagedSlice(who)} == w.shared.slices - {ManagedSlice(who)};
    }
    ServicesUntouched(who, w, w');
    if exclusive {
      if Intercepting(who.mode) {
        SlicesPartPut(who, base.slices, w.shared.slices, n, s);
      } else {
        SliceWritePreviewed(who, base, w, n, s);
      }
      StillRestorable(who, base, w, w');
    }
  }

  /** A patch between two owned forms of the managed slice lands on an owned slice only if the slice
      was still owned, and then it stays controlled. */
  lemma MergedSliceMarks(who: Subject, stored: Slice, before: Slice, after: Slice)
    requires who.name != "" && who.uid != ""
    requires Owned(before.annotations, who) && ControlledBy(before.owners, who.uid)
    requires Owned(after.annotations, who) && ControlledBy(after.owners, who.uid)
    requires Owned(stored.annotations, who) ==> stored.owners == before.owners
    ensures var s := MergeSlice(stored, before, after);
            Owned(s.annotations, who) ==> ControlledBy(s.owners, who.uid)
  {
    assert !Changed(before.annotations, after.annotations, NameKey);
    assert !Changed(before.annotations, after.annotations, UidKey);
  }

  lemma ManagedSliceDeleteRestorable(who: Subject, base: Shared, w: World)
    requires Pristine(who, base) && Restorable(who, base, w) && w.binding.Some?
    requires ManagedSlice(who) in w.shared.slices
    ensures Restorable(who, base, WithoutSlice(w, ManagedSlice(who)))
  {
    var w' := WithoutSlice(w, ManagedSlice(who));
    assert w.shared != base;
    assert w'.shared.slices - {ManagedSlice(who)} == w.shared.slices - {ManagedSlice(who)};
  }

  lemma ManagedSliceDelete(who: Subject, exclusive: bool, base: Shared, w: World)
    requires Inv(who, exclusive, base, w) && w.binding.Some? && ManagedSlice(who) in w.shared.slices
    ensures var w' := WithoutSlice(w, ManagedSlice(who));
            Inv(who, exclusive, base, w') && Guarantee(who, w, w')
  {
    var w' := WithoutSlice(w, ManagedSlice(who));
    assert w'.shared.slices - {ManagedSlice(who)} == w.shared.slices - {ManagedSlice(who)};
    ServicesUntouched(who, w, w');
    if exclusive { ManagedSliceDeleteRestorable(who, base, w); }
  }

  lemma SlicesPartDrop(who: Subject, base: map<string, Slice>, now: map<string, Slice>, n: string)
    requires SlicesPart(who, base, now)
    requires n in base ==> Labelled(base[n], who.service)
    ensures SlicesPart(who, base, now - {n})
  {}

  lemma ServiceSliceDelete(who: Subject, exclusive: bool, base: Shared, w: World, b: Binding, n: string)
    requires Inv(who, exclusive, base, w) && Licensed(who, b, w) && n != ManagedSlice(who)
    requires Intercepting(who.mode) && NotForeign(who, w.shared)
    requires exclusive && n in base.slices ==> Labelled(base.slices[n], who.service)
    ensures Inv(who, exclusive, base, WithoutSlice(w, n)) && Guarantee(who, w, WithoutSlice(w, n))
  {
    LicensedIsBusy(who, b, w);
    ServicesUntouched(who, w, WithoutSlice(w, n));
    if exclusive {
      SlicesPartDrop(who, base.slices, w.shared.slices, n);
      StillRestorable(who, base, w, WithoutSlice(w, n));
    }
  }

  predicate EndpointsEdit(who: Subject, exclusive: bool, base: Shared, w: World, b: Binding) {
    Licensed(who, b, w) && Intercepting(who.mode) && NotForeign(who, w.shared)
  }

  lemma EndpointsPartChange(t: string, base: map<string, seq<Subset>>, now: map<string, seq<Subset>>)
    requires EndpointsPart(t, base, now)
    ensures EndpointsPart(t, base, now - {t})
    ensures t in base ==> EndpointsPart(t, base, now[t := base[t]])
  {}

  lemma EndpointsWrite(who: Subject, exclusive: bool, base: Shared, w: World, b: Binding, e: seq<Subset>)
    requires Inv(who, exclusive, base, w) && EndpointsEdit(who, exclusive, base, w, b)
    requires exclusive ==> who.service in base.endpoints && base.endpoints[who.service] == e
    ensures var w' := WithEndpoints(w, who.service, e);
            Inv(who, exclusive, base, w') && Guarantee(who, w, w')
  {
    LicensedIsBusy(who, b, w);
    ServicesUntouched(who, w, WithEndpoints(w, who.service, e));
    if exclusive {
      if PartlyHijacked(who, base, w.shared) {
        EndpointsPartChange(who.service, base.endpoints, w.shared.endpoints);
      }
      StillRestorable(who, base, w, WithEndpoints(w, who.service, e));
    }
  }

  lemma EndpointsDelete(who: Subject, exclusive: bool, base: Shared, w: World, b: Binding)
    requires Inv(who, exclusive, base, w) && EndpointsEdit(who, exclusive, base, w, b)
    ensures var w' := WithoutEndpoints(w, who.service);
            Inv(who, exclusive, base, w') && Guarantee(who, w, w')
  {
    LicensedIsBusy(who, b, w);
    ServicesUntouched(who, w, WithoutEndpoints(w, who.service));
    if exclusive {
      if PartlyHijacked(who, base, w.shared) {
        EndpointsPartChange(who.service, base.endpoints, w.shared.endpoints);
      }
      StillRestorable(who, base, w, WithoutEndpoints(w, who.service));
    }
  }
}
