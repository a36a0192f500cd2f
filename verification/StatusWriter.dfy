/** The status setters: each computes the intended status and patches the difference. */
module StatusWriter {
  import opened Kube
  import opened Bindings
  import opened Safety
  import opened Writes
  import opened Api

  /** What a reconcile knows about the copy it has just read. */
  ghost predicate Known(client: ApiServer, b: Binding)
    reads client
  {
    && client.Valid() && Synced(b, client.world)
    && WellFormed(client.who, b) && Coherent(b.status) && SnapshotSafe(client.who, b)
    && (client.exclusive && Intercepting(client.who.mode) && b.status.snapshot.Some? ==>
          && Faithful(b.status.snapshot.value, client.base, client.who.service)
          && DistinctNames(b.status.snapshot.value.slices))
  }

  /** Nothing of the binding is left, and nothing else was changed. */
  ghost predicate Clear(client: ApiServer)
    reads client
  {
    && Unmarked(client.who, client.world.shared) && !OwnSlice(client.who, client.world.shared)
    && (client.exclusive ==> client.world.shared == client.base)
  }

  /** A status in a working phase that leaves the snapshot alone is always allowed. */
  lemma WorkingStatusAllowed(client: ApiServer, b: Binding, s: Status)
    requires Known(client, b) && Coherent(s) && (s.serviceName == "" || s.serviceName == client.who.service)
    requires !Resting(s.phase) && s.snapshot == b.status.snapshot
    requires !b.status.phase.Restored? && (b.finalizer || s.phase.Degraded?)
    ensures StatusAllowed(client.who, client.exclusive, client.base, client.world, s)
  {}

  /** A status in a resting phase is allowed once nothing is left in the cluster. */
  lemma RestingStatusAllowed(client: ApiServer, b: Binding, s: Status)
    requires Known(client, b) && Coherent(s) && (s.serviceName == "" || s.serviceName == client.who.service)
    requires Resting(s.phase) && !s.phase.Pending? && b.finalizer && Clear(client)
    requires if s.phase.Restored? then b.deleting && s.snapshot == b.status.snapshot
             else s.snapshot.None? && !b.status.phase.Restored?
    ensures StatusAllowed(client.who, client.exclusive, client.base, client.world, s)
  {}

  /** A stored binding that may not have marks has none, and its cluster is the baseline. */
  lemma RestingIsClear(client: ApiServer, b: Binding)
    requires client.Valid() && client.world.binding == Some(b)
    requires !MayMark(client.who, b)
    ensures Clear(client)
  {
    var who, c := client.who, client.world.shared;
    assert !Footprint(who, c);
    forall n | n in c.services ensures !Marked(c.services[n], who.uid) {}
    if client.exclusive && who.mode == Preview {
      PreviewGone(who, client.base, c);
    }
  }

  method PatchIfChanged(client: ApiServer, before: Status, after: Status) returns (r: Result<()>)
    requires client.Valid()
    requires client.world.binding.Some? ==>
               StatusAllowed(client.who, client.exclusive, client.base, client.world,
                             MergeStatus(client.world.binding.value.status, before, after))
    modifies client
    ensures client.Valid() && old(client.history) <= client.history
    ensures r.Ok? && before != after ==>
              && old(client.world).binding.Some? && client.world.binding.Some?
              && client.world.binding.value.finalizer == old(client.world).binding.value.finalizer
              && client.world.binding.value.status ==
                 MergeStatus(old(client.world).binding.value.status, before, after)
    ensures before == after ==> r.Ok? && client.world == old(client.world) && client.history == old(client.history)
    ensures r.Err? && !after.phase.Pending? ==>
              forall b :: Synced(b, old(client.world)) && !Resting(b.status.phase) ==>
                         Synced(b, client.world) ||
                         Synced(b.(status := MergeStatus(b.status, before, after)), client.world)
    ensures client.exclusive ==> client.world.shared == old(client.world).shared
    ensures client.quiet && old(client.world).binding.Some? ==>
              && r.Ok?
              && client.world ==
                 WithStatus(old(client.world), MergeStatus(old(client.world).binding.value.status, before, after))
    ensures r.Err? ==> !r.error.Permanent?
  {
    hide Inv;
    if before == after { return Ok(()); }
    r := client.PatchStatus(before, after);
  }

  /** The stored binding has this status, and still its finalizer. */
  predicate Holds(w: World, s: Status) {
    w.binding.Some? && w.binding.value.status == s && w.binding.value.finalizer
  }

  /** The common shape of a setter: from the local copy, which mirrors what is stored, to `after`. */
  method SetStatus(client: ApiServer, b: Binding, after: Status) returns (r: Result<()>)
    requires client.Valid() && Synced(b, client.world)
    requires StatusAllowed(client.who, client.exclusive, client.base, client.world, after)
    modifies client
    ensures client.Valid() && old(client.history) <= client.history
    ensures client.exclusive ==> client.world.shared == old(client.world).shared
    ensures r.Ok? && b.finalizer ==> Holds(client.world, after)
    ensures client.quiet && old(client.world).binding.Some? ==>
              r.Ok? && client.world == WithStatus(old(client.world), after)
  {
    hide Inv, StatusAllowed;
    r := PatchIfChanged(client, b.status, after);
  }

  /** Falling back to Pending, or starting there. An intercept that has lost its relay keeps its snapshot. */
  lemma PendingStatusAllowed(client: ApiServer, b: Binding, s: Status)
    requires Known(client, b) && Coherent(s) && (s.serviceName == "" || s.serviceName == client.who.service)
    requires s.phase.Pending? && b.finalizer && !b.status.phase.Restored? && s.snapshot == b.status.snapshot
    requires if b.status.snapshot.None? then Clear(client) else !RelayHeld(b) && client.world.binding == Some(b)
    ensures StatusAllowed(client.who, client.exclusive, client.base, client.world, s)
  {}

  method SetPending(client: ApiServer, b: Binding) returns (r: Result<()>)
    requires Known(client, b) && b.finalizer && !b.status.phase.Restored?
    requires if b.status.snapshot.None? then Clear(client) else !RelayHeld(b) && client.world.binding == Some(b)
    modifies client
    ensures client.Valid() && old(client.history) <= client.history
    ensures client.exclusive ==> client.world.shared == old(client.world).shared
    ensures r.Ok? ==> Holds(client.world, LifecycleStatus(b.status, b.generation, Pending, No))
    ensures client.quiet && old(client.world).binding.Some? ==>
              && r.Ok?
              && client.world == WithStatus(old(client.world), LifecycleStatus(b.status, b.generation, Pending, No))
  {
    PendingStatusAllowed(client, b, LifecycleStatus(b.status, b.generation, Pending, No));
    r := SetStatus(client, b, b.status.(observed := b.generation, phase := Pending,
                                        conditions := Conditions(Yes, No, No, No, No, No)));
  }

  /** setReconciling, setRestoring and setPausing. */
  method SetWorking(client: ApiServer, b: Binding, phase: Phase) returns (r: Result<()>)
    requires Known(client, b) && b.finalizer && !b.status.phase.Restored?
    requires phase in {Reconciling, Restoring, Pausing}
    modifies client
    ensures client.Valid() && old(client.history) <= client.history
    ensures client.exclusive ==> client.world.shared == old(client.world).shared
    ensures r.Ok? ==> Holds(client.world, LifecycleStatus(b.status, b.generation, phase, Yes))
    ensures client.quiet && old(client.world).binding.Some? ==>
              && r.Ok?
              && client.world == WithStatus(old(client.world), LifecycleStatus(b.status, b.generation, phase, Yes))
  {
    WorkingStatusAllowed(client, b, LifecycleStatus(b.status, b.generation, phase, Yes));
    r := SetStatus(client, b, b.status.(observed := b.generation, phase := phase,
                                        conditions := Conditions(Yes, Yes, No, No, No, No)));
  }

  /** setPauseFailed and setRestoreFailed. */
  method SetFailed(client: ApiServer, b: Binding, phase: Phase) returns (r: Result<()>)
    requires Known(client, b) && b.finalizer && !b.status.phase.Restored? && phase in {Restoring, Pausing}
    modifies client
    ensures client.Valid() && old(client.history) <= client.history
    ensures r.Ok? ==> Holds(client.world, FailedStatus(b.status, b.generation, phase))
    ensures client.quiet && old(client.world).binding.Some? ==>
              r.Ok? && client.world == WithStatus(old(client.world), FailedStatus(b.status, b.generation, phase))
  {
    WorkingStatusAllowed(client, b, FailedStatus(b.status, b.generation, phase));
    r := SetStatus(client, b, b.status.(observed := b.generation, phase := phase,
                                        conditions := Conditions(Yes, No, No, Yes, No, No)));
  }

  method SetPaused(client: ApiServer, b: Binding) returns (r: Result<()>)
    requires Known(client, b) && b.finalizer && Clear(client) && !b.status.phase.Restored?
    modifies client
    ensures client.Valid() && old(client.history) <= client.history
    ensures client.exclusive ==> client.world.shared == old(client.world).shared
    ensures r.Ok? ==> Holds(client.world, PausedStatus(b.status, b.generation))
    ensures client.quiet && old(client.world).binding.Some? ==>
              r.Ok? && client.world == WithStatus(old(client.world), PausedStatus(b.status, b.generation))
  {
    RestingStatusAllowed(client, b, PausedStatus(b.status, b.generation));
    r := SetStatus(client, b, b.status.(observed := b.generation, phase := PausedPhase, serviceClusterIP := "",
                                        snapshot := None, conditions := Conditions(Yes, No, No, No, Yes, No)));
  }

  method SetRestored(client: ApiServer, b: Binding) returns (r: Result<()>)
    requires Known(client, b) && b.finalizer && Clear(client) && b.deleting
    modifies client
    ensures client.Valid() && old(client.history) <= client.history
    ensures client.exclusive ==> client.world.shared == old(client.world).shared
    ensures r.Ok? ==> Holds(client.world, RestoredStatus(b.status, b.generation))
    ensures client.quiet && old(client.world).binding.Some? ==>
              r.Ok? && client.world == WithStatus(old(client.world), RestoredStatus(b.status, b.generation))
  {
    RestingStatusAllowed(client, b, RestoredStatus(b.status, b.generation));
    r := SetStatus(client, b, b.status.(observed := b.generation, phase := Restored,
                                        conditions := Conditions(Yes, No, No, No, No, Yes)));
  }

  /** Degrading after a failure whose local edits were never stored: `local` is the edited copy, `b` the
      one read. Only fields the two sides of this patch disagree on are sent. */
  method SetDegraded(client: ApiServer, ghost b: Binding, local: Binding, invalidSpec: bool) returns (r: Result<()>)
    requires Known(client, b) && !b.status.phase.Restored?
    requires local.status.phase == b.status.phase || local.status.phase == Reconciling
    requires local.status.conditions == b.status.conditions || local.status.conditions.progressing == Yes
    requires local.status.conditions.restored == b.status.conditions.restored
    requires local.status.serviceName == b.status.serviceName || local.status.serviceName == client.who.service
    modifies client
    ensures client.Valid() && old(client.history) <= client.history
    ensures client.exclusive ==> client.world.shared == old(client.world).shared
    ensures local.status == DegradedStatus(local.status, local.generation, invalidSpec) ==>
              client.history == old(client.history)
    ensures r.Ok? && b.finalizer ==>
              Holds(client.world, MergeStatus(b.status, local.status,
                                              DegradedStatus(local.status, local.generation, invalidSpec)))
    ensures client.quiet && old(client.world).binding.Some? ==>
              && r.Ok?
              && client.world == WithStatus(old(client.world), MergeStatus(b.status, local.status,
                   DegradedStatus(local.status, local.generation, invalidSpec)))
  {
    var conditions := local.status.conditions.(
      accepted := if invalidSpec then No else Yes, ready := No, degraded := Yes, progressing := No, paused := No);
    var after := local.status.(observed := local.generation, phase := Degraded, conditions := conditions);
    WorkingStatusAllowed(client, b, MergeStatus(b.status, local.status, after));
    r := PatchIfChanged(client, local.status, after);
  }

  method SetReady(client: ApiServer, b: Binding, local: Binding) returns (r: Result<()>)
    requires Known(client, b) && b.finalizer && !b.status.phase.Restored?
    requires local.status.snapshot == b.status.snapshot && local.generation == b.generation
    requires local.status.serviceName == b.status.serviceName || local.status.serviceName == client.who.service
    modifies client
    ensures client.Valid() && old(client.history) <= client.history
    ensures client.exclusive ==> client.world.shared == old(client.world).shared
    ensures b.status == ReadyStatus(local.status, b.generation) ==> client.history == old(client.history)
    ensures r.Ok? ==> Holds(client.world, ReadyStatus(local.status, b.generation))
    ensures client.quiet && old(client.world).binding.Some? ==>
              r.Ok? && client.world == WithStatus(old(client.world), ReadyStatus(local.status, b.generation))
  {
    WorkingStatusAllowed(client, b, ReadyStatus(local.status, local.generation));
    r := PatchIfChanged(client, b.status, local.status.(observed := local.generation, phase := Ready,
                                                        conditions := Conditions(Yes, No, Yes, No, No, No)));
  }

  /** Storing the snapshot before anything is touched. On failure the local copy keeps the edit. */
  method PersistSnapshot(client: ApiServer, b: Binding, snapshot: Snapshot) returns (local: Binding, r: Result<()>)
    requires Known(client, b) && b.finalizer && b.spec.relay.Some?
    requires b.status.phase.Ready? || b.status.phase.Reconciling?
    requires b.status.snapshot.None? && Intercepting(client.who.mode)
    requires snapshot.serviceName == client.who.service && !Records(client.who, snapshot)
    requires client.exclusive ==>
               && Faithful(snapshot, client.base, client.who.service) && DistinctNames(snapshot.slices)
               && client.world.shared == client.base
    modifies client
    ensures client.Valid() && old(client.history) <= client.history
    ensures local == b.(status := SnapshotStatus(b.status, b.generation, snapshot))
    ensures r.Err? ==> !r.error.Permanent? && (Synced(b, client.world) || Synced(local, client.world))
    ensures client.exclusive ==> client.world.shared == old(client.world).shared
    ensures r.Ok? ==> Holds(client.world, local.status)
    ensures client.quiet && old(client.world).binding.Some? ==>
              r.Ok? && client.world == WithStatus(old(client.world), local.status)
  {
    local := b.(status := b.status.(
                  snapshot := Some(snapshot), phase := Reconciling, observed := b.generation,
                  serviceName := snapshot.serviceName,
                  conditions := b.status.conditions.(ready := No, progressing := Yes)));
    assert StatusAllowed(client.who, client.exclusive, client.base, client.world, local.status);
    r := client.PatchStatus(b.status, local.status);
  }
}
