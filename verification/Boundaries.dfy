/** Where the guarantees begin and end: what a pass, a patch or a restore does outside the assumptions about the other
    parties, the exact condition under which that is harmless, and states in which it is not. */
module Boundaries {
  import opened Kube
  import opened Bindings
  import opened Safety
  import opened Writes
  import opened Api
  import opened Validation
  import opened Controller
  import Restore
  import Intercept

  /** A binding as it is first stored, before the operator has seen it. */
  predicate Newborn(who: Subject, b: Binding) {
    && b.name == who.name && b.uid == who.uid && b.spec.mode == who.mode && Shaped(b.spec) &&
       ServiceOf(b.spec) == who.service
    && !b.deleting && !b.finalizer && b.status.phase.NoPhase? && b.status.serviceName == "" && b.status.snapshot.None?
    && b.status.conditions == Conditions(Absent, Absent, Absent, Absent, Absent, Absent)
  }

  /** Runs start in the invariant: any new binding in a cluster without a trace of it. */
  lemma FreshStart(who: Subject, exclusive: bool, base: Shared, b: Binding)
    requires who.uid != "" && who.name != "" && Newborn(who, b)
    requires !Footprint(who, base) && (exclusive ==> Pristine(who, base))
    ensures Inv(who, exclusive, base, World(Some(b), base))
  {
    forall n | n in base.services ensures !Marked(base.services[n], who.uid) {}
  }

  // ----- one pass over a snapshot -----

  /** A pass that leaves marks behind has lost the snapshot they were to be undone from in exactly these cases: the
      finalizer was dropped, a pause recorded without a cleanup, or the cleanup of a pause recorded as done. From a
      safe world none of them happens. */
  lemma SnapshotLostWhen(who: Subject, b: Binding, w: World, w': World)
    requires w.binding == Some(b) && Intercepting(b.spec.mode) && b.status.snapshot.Some?
    requires Follows(who, b, w, w') && Footprint(who, w'.shared)
    ensures Lost(w') <==>
              || (b.deleting && b.finalizer && b.status.phase.Restored?)
              || (!b.deleting && b.finalizer && ValidSpec(b.spec) && WantsPause(b) &&
                  (b.status.phase.NoPhase? || b.status.phase.Pending? ||
                   (b.status.phase.PausedPhase? && b.status.observed != b.generation) ||
                   (b.status.phase.Pausing? && w'.binding == Some(b.(status := CleanedStatus(b, Pausing))))))
    ensures Safe(who, w) && who.mode == b.spec.mode ==> !Lost(w')
  {
  }

  /** A cleanup that is recorded as done leaves marks exactly if a Service of another name carries them, as a copy
      made with its annotations does. */
  lemma CleanupLeavesMarksWhen(who: Subject, b: Binding, w: World, w': World, phase: Phase)
    requires w.binding == Some(b) && Intercepting(b.spec.mode) && b.status.snapshot.Some?
    requires !Records(who, b.status.snapshot.value) && Decide(b) == CleanUp(phase) && Follows(who, b, w, w')
    requires w'.binding == Some(b.(status := CleanedStatus(b, phase)))
    ensures Footprint(who, w'.shared) <==>
            exists n :: n != who.service && n in w.shared.services && Marked(w.shared.services[n], who.uid)
  {
    assert CleanedUp(who, b, w, w'.shared);
    if n :| n != who.service && n in w.shared.services && Marked(w.shared.services[n], who.uid) {
      assert n in w'.shared.services && Marked(w'.shared.services[n], who.uid);
    }
  }

  predicate Lost(w: World) { w.binding.None? || w.binding.value.status.snapshot.None? }

  // ----- pauses and withdrawn relays -----

  function WithBinding(w: World, b: Binding): World { w.(binding := Some(b)) }

  /** A user asks for a pause. */
  function PauseRequested(b: Binding): Binding {
    b.(spec := b.spec.(desired := Paused), generation := b.generation + 1)
  }

  /** A user takes the relay and the relay ports away. */
  function RelayWithdrawn(b: Binding): Binding {
    b.(spec := b.spec.(relay := None,
                       ports := seq(|b.spec.ports|, i requires 0 <= i < |b.spec.ports| =>
                         b.spec.ports[i].(relayPort := None))),
       generation := b.generation + 1)
  }

  /** A pause asked of an active intercept ends, with the pass it triggers, in a safe state unless the binding waits
      in Pending over marks. Only a pass that cleans up is left to `Reconcile`. */
  lemma PauseIsSafeWhen(who: Subject, w: World, b: Binding, w': World)
    requires Safe(who, w) && w.binding == Some(b) && Intercepting(who.mode) && !b.deleting && !WantsPause(b)
    requires Follows(who, PauseRequested(b), WithBinding(w, PauseRequested(b)), w') &&
             !Decide(PauseRequested(b)).CleanUp?
    ensures w'.shared == w.shared
    ensures Safe(who, w') <==>
              !(b.status.phase.Pending? && Footprint(who, w.shared) && ValidSpec(PauseRequested(b).spec))
  {
    hide ValidSpec;
    var b1 := PauseRequested(b);
    assert WellFormed(who, b1) && ServiceOf(b1.spec) == who.service;
    if b.finalizer && ValidSpec(b1.spec) &&
      (b.status.phase.Pending? || b.status.phase.NoPhase? || b.status.phase.PausedPhase?) {
      assert Lost(w') && w'.binding.value.status.phase.PausedPhase?;
      hide Decide, Follows;
      PausedOver(who, w, b, w');
      assert !b.status.phase.Pending? ==> !Footprint(who, w.shared);
    } else {
      assert w'.binding.value.status.snapshot == b.status.snapshot;
      KeptOver(who, w, b, w');
    }
  }

  /** A status without rest that keeps the snapshot. */
  lemma KeptOver(who: Subject, w: World, b: Binding, w': World)
    requires Safe(who, w) && w.binding == Some(b) && !b.deleting && w'.shared == w.shared
    requires w'.binding.Some? && WellFormed(who, w'.binding.value) && Coherent(w'.binding.value.status)
    requires var b' := w'.binding.value;
             && b'.status.snapshot == b.status.snapshot && !b'.deleting && (b.finalizer ==> b'.finalizer)
             && (b'.status == b.status || !Resting(b'.status.phase) || (b'.status.phase.Pending? && !b.finalizer))
             && (b'.status == b.status ==> !b.status.phase.Pending?)
    requires Intercepting(who.mode)
    ensures Safe(who, w')
  {
    if !Footprint(who, w.shared) {
      forall n | n in w.shared.services ensures !Marked(w.shared.services[n], who.uid) {}
    }
  }

  /** The same when the pause comes during the pass that falls back to Pending: what that pass records and the next
      one makes of it is safe unless there is a pause to miss and something to restore. */
  lemma FallBackIsSafeWhen(who: Subject, w: World, b: Binding, generation: int, w2: World, w3: World)
    requires Safe(who, w) && w.binding == Some(b) && Intercepting(who.mode) && b.status.snapshot.Some?
    requires !b.deleting && ValidSpec(b.spec)
    requires w2 == WithStatus(w, LifecycleStatus(b.status, generation, Pending, No))
    requires Follows(who, w2.binding.value, w2, w3)
    ensures w3.shared == w.shared
    ensures Safe(who, w3) <==> !(WantsPause(b) && Footprint(who, w.shared))
  {
    hide ValidSpec;
    var b2 := w2.binding.value;
    assert WellFormed(who, b2) && b2.status.snapshot == b.status.snapshot;
    if WantsPause(b) {
      assert Lost(w3) && w3.binding.value.status.phase.PausedPhase?;
      hide Decide, Follows;
      PausedOver(who, w, b, w3);
    } else {
      assert w3.binding.value.status.snapshot == b.status.snapshot;
      hide Decide, Follows;
      if !Footprint(who, w.shared) {
        forall n | n in w.shared.services ensures !Marked(w.shared.services[n], who.uid) {}
      }
    }
  }

  /** The relay withdrawn, a pass, a pause, a pass: nothing has been restored, no snapshot is left, and the state
      is safe exactly if there was nothing to restore. For an intercept each state before the pause is safe. */
  lemma WithdrawnThenPaused(who: Subject, w: World, b: Binding, w2: World, b2: Binding, w4: World)
    requires Safe(who, w) && w.binding == Some(b) && who.mode != PortForward
    requires !b.deleting && b.finalizer && ValidSpec(b.spec) && !WantsPause(b) && b.spec.relay.Some?
    requires Follows(who, RelayWithdrawn(b), WithBinding(w, RelayWithdrawn(b)), w2) && w2.binding == Some(b2)
    requires Follows(who, PauseRequested(b2), WithBinding(w2, PauseRequested(b2)), w4)
    ensures Intercepting(who.mode) ==>
              && Outside(who, true, w, WithBinding(w, RelayWithdrawn(b)))
              && Safe(who, WithBinding(w, RelayWithdrawn(b))) && Safe(who, w2)
    ensures b2.status.phase.Pending? && b2.status.snapshot == b.status.snapshot
    ensures w4.shared == w.shared && w4.binding.Some? && w4.binding.value.status.phase.PausedPhase? && Lost(w4)
    ensures Safe(who, w4) <==> !Footprint(who, w.shared)
  {
    hide ValidSpec, Decide, Follows;
    FirstPass(who, w, b, w2, b2);
    SecondPass(who, b, w2, b2, w4);
    if Intercepting(who.mode) {
      OutsideKeepsSafe(who, true, w, WithBinding(w, RelayWithdrawn(b)));
    }
    PausedOver(who, w, b, w4);
  }

  /** Without a relay the binding falls back to Pending. */
  lemma FirstPass(who: Subject, w: World, b: Binding, w2: World, b2: Binding)
    requires w.binding == Some(b) && b.spec.mode != PortForward && (b.status.phase.Pending? ==> Coherent(b.status))
    requires !b.deleting && b.finalizer && ValidSpec(b.spec) && !WantsPause(b)
    requires Follows(who, RelayWithdrawn(b), WithBinding(w, RelayWithdrawn(b)), w2) && w2.binding == Some(b2)
    ensures w2.shared == w.shared && b2 == RelayWithdrawn(b).(status := b2.status)
    ensures b2.status.phase.Pending? && Coherent(b2.status)
    ensures b2.status.snapshot == b.status.snapshot && b2.status.serviceName == b.status.serviceName
  {
    RelayLessIsValid(b);
  }

  /** A pause asked of a binding in Pending is recorded without a cleanup. */
  lemma SecondPass(who: Subject, b: Binding, w2: World, b2: Binding, w4: World)
    requires !b.deleting && b.finalizer && ValidSpec(b.spec) && b.spec.mode != PortForward
    requires b2 == RelayWithdrawn(b).(status := b2.status) && b2.status.phase.Pending? && w2.binding == Some(b2)
    requires Follows(who, PauseRequested(b2), WithBinding(w2, PauseRequested(b2)), w4)
    ensures w4 == World(Some(PauseRequested(b2).(status := PausedStatus(b2.status, b2.generation + 1))), w2.shared)
  {
    RelayLessIsValid(b);
  }

  /** Paused, without a snapshot, over an unchanged cluster. */
  lemma PausedOver(who: Subject, w: World, b: Binding, w': World)
    requires Safe(who, w) && w.binding == Some(b) && b.finalizer && !b.deleting && w'.shared == w.shared && Lost(w')
    requires w'.binding.Some? && w'.binding.value.finalizer && w'.binding.value.status.phase.PausedPhase?
    requires WellFormed(who, w'.binding.value) && Coherent(w'.binding.value.status)
    ensures Safe(who, w') <==> !Footprint(who, w.shared)
  {
    if !Footprint(who, w.shared) {
      forall n | n in w.shared.services ensures !Marked(w.shared.services[n], who.uid) {}
    }
  }

  lemma RelayLessIsValid(b: Binding)
    requires ValidSpec(b.spec) && b.spec.mode != PortForward
    ensures ValidSpec(RelayWithdrawn(b).spec) && AwaitingRelay(RelayWithdrawn(b).spec)
    ensures ValidSpec(PauseRequested(RelayWithdrawn(b)).spec)
  {
    var ports, ports' := b.spec.ports, RelayWithdrawn(b).spec.ports;
    assert forall i :: 0 <= i < |ports| ==> PortValid(ports[i]) && ports'[i] == ports[i].(relayPort := None);
    forall i, j | 0 <= i < j < |ports'| ensures !Clash(ports'[i], ports'[j]) {
      assert !Clash(ports[i], ports[j]);
    }
  }

  // ----- patches that land on another Service than was read -----

  /** What the two patches of a Service need: it is safe, and no other binding's, exactly if the patch changes
      nothing or the stored Service is still that of the snapshot and not claimed by another binding. */
  ghost predicate LandsWell(who: Subject, w: World, read: Service, after: Service)
    requires who.service in w.shared.services
  {
    Safe(who, Edited(who, w, read, after)) && Guarantee(who, w, Edited(who, w, read, after))
  }

  predicate StillTheSame(who: Subject, w: World, read: Service)
    requires who.service in w.shared.services
  {
    w.shared.services[who.service].uid == read.uid && !Foreign(w.shared.services[who.service], who.uid)
  }

  predicate PatchReady(who: Subject, w: World, b: Binding, read: Service) {
    && Safe(who, w) && w.binding == Some(b) && Intercepting(who.mode) && MayMark(who, b)
    && read.uid == b.status.snapshot.value.serviceUid && !Foreign(read, who.uid)
    && who.service in w.shared.services
  }

  /** The claim names the Service without the UID that was read. */
  lemma ClaimLandsWellWhen(who: Subject, w: World, b: Binding, read: Service)
    requires PatchReady(who, w, b, read)
    ensures var after := Hijacked(read, who);
            LandsWell(who, w, read, after) <==> Edited(who, w, read, after) == w || StillTheSame(who, w, read)
  {
    PatchLandsWellWhen(who, w, b, read, Hijacked(read, who));
  }

  /** So does the release. */
  lemma ReleaseLandsWellWhen(who: Subject, w: World, b: Binding, read: Service)
    requires PatchReady(who, w, b, read)
    ensures var after := Restore.RestoredService(read, b.status.snapshot.value);
            LandsWell(who, w, read, after) <==> Edited(who, w, read, after) == w || StillTheSame(who, w, read)
  {
    PatchLandsWellWhen(who, w, b, read, Restore.RestoredService(read, b.status.snapshot.value));
  }

  lemma PatchLandsWellWhen(who: Subject, w: World, b: Binding, read: Service, after: Service)
    requires PatchReady(who, w, b, read)
    requires Lookup(after.annotations, UidKey) == who.uid || UidKey !in after.annotations
    ensures LandsWell(who, w, read, after) <==> Edited(who, w, read, after) == w || StillTheSame(who, w, read)
  {
    var w' := Edited(who, w, read, after);
    if w' != w && StillTheSame(who, w, read) { SamePatchLandsWell(who, w, b, read, after); }
    if Guarantee(who, w, w') && w' != w { assert w'.shared.services != w.shared.services; }
  }

  lemma SamePatchLandsWell(who: Subject, w: World, b: Binding, read: Service, after: Service)
    requires PatchReady(who, w, b, read) && StillTheSame(who, w, read)
    requires Lookup(after.annotations, UidKey) == who.uid || UidKey !in after.annotations
    ensures LandsWell(who, w, read, after)
  {
    var stored := w.shared.services[who.service];
    MergeMapKey(stored.annotations, read.annotations, after.annotations, UidKey);
    var s := MergeService(stored, read, after);
    OwnServiceEdited(who, w, b, s);
    OwnServiceChanged(who, w, s);
  }

  lemma OwnServiceEdited(who: Subject, w: World, b: Binding, s: Service)
    requires Safe(who, w) && w.binding == Some(b) && Intercepting(who.mode) && MayMark(who, b)
    requires s.uid == b.status.snapshot.value.serviceUid
    ensures Safe(who, WithService(w, who.service, s))
  {
  }

  // ----- another binding's snapshot of the managed slice -----

  /** Another intercept that restores the managed slice from its snapshot acts within its own guarantee; for the
      slice's binding that is safe exactly if it may have marks and controls the slice. */
  lemma ReturnOfTheSliceIsSafeWhen(who: Subject, w: World, other: Subject, b: Binding, s: Slice)
    requires Safe(who, w) && other.uid != who.uid && Intercepting(other.mode) && Owned(s.annotations, who)
    requires Saved(Some(b), ManagedSlice(who), s) && NotForeign(other, w.shared)
    ensures Records(who, b.status.snapshot.value)
    ensures var w' := WithSlice(w, ManagedSlice(who), s);
            && Guarantee(other, World(Some(b), w.shared), World(Some(b), w'.shared))
            && (Safe(who, w') <==> w.binding.Some? && MayMark(who, w.binding.value) && ControlledBy(s.owners, who.uid))
  {
    var w' := WithSlice(w, ManagedSlice(who), s);
    assert OwnSlice(who, w'.shared);
    var snap := b.status.snapshot.value;
    var i :| 0 <= i < |snap.slices| && snap.slices[i] == NamedSlice(ManagedSlice(who), s);
    assert snap.slices[i].name == ManagedSlice(who);
  }

  // ----- permanent conflicts -----

  /** A blocked binding never comes to rest: a pass changes its phase and leaves it blocked. */
  lemma BlockedStays(who: Subject, w: World)
    requires Blocked(who, w)
    ensures var w' := WithStatus(w, BlockedStatus(w.binding.value));
            Blocked(who, w') && w'.binding.value.status.phase != w.binding.value.status.phase
  {
    var b := w.binding.value;
    var b' := b.(status := BlockedStatus(b));
    assert Intercept.Capturable(b', w.shared, who.service) <==> Intercept.Capturable(b, w.shared, who.service);
  }

  /** One such pass: only the status changes. */
  method BlockedPass(client: ApiServer)
    requires client.Valid() && client.quiet && Blocked(client.who, client.world)
    modifies client
    ensures client.Valid() && Blocked(client.who, client.world) && client.world.shared == old(client.world).shared
    ensures PhaseOf(client.world) ==
            if PhaseOf(old(client.world)) in {Ready, Reconciling} then Degraded else Reconciling
  {
    BlockedStays(client.who, client.world);
    hide *;
    var o, at := Reconcile(client);
  }

  function PhaseOf(w: World): Phase { if w.binding.Some? then w.binding.value.status.phase else NoPhase }

  /** So even undisturbed it goes on for ever, alternating between Reconciling and Degraded. */
  method Alternate(client: ApiServer, passes: nat)
    requires client.Valid() && client.quiet && Blocked(client.who, client.world)
    modifies client
    ensures client.Valid() && Blocked(client.who, client.world) && client.world.shared == old(client.world).shared
    ensures passes >= 1 ==> PhaseOf(client.world) in {Reconciling, Degraded}
    ensures PhaseOf(old(client.world)) in {Reconciling, Degraded} ==>
              (PhaseOf(client.world) == PhaseOf(old(client.world)) <==> passes % 2 == 0)
  {
    hide *;
    ghost var was := PhaseOf(client.world);
    for i := 0 to passes
      invariant client.Valid() && Blocked(client.who, client.world)
      invariant client.world.shared == old(client.world).shared
      invariant i >= 1 ==> PhaseOf(client.world) in {Reconciling, Degraded}
      invariant was in {Reconciling, Degraded} ==>
                  PhaseOf(client.world) in {Reconciling, Degraded} && (PhaseOf(client.world) == was <==> i % 2 == 0)
    {
      BlockedPass(client);
    }
  }
}
