/** The reconcile loop: the phase machine that ties capture, interception and rollback together. */
module Controller {
  import opened Kube
  import opened Bindings
  import opened Safety
  import opened Writes
  import opened Api
  import opened StatusWriter
  import opened Validation
  import Restore
  import Intercept
  import PreviewService

  datatype Outcome = Done | Requeue | Failed(error: Error)

  // ----- what one pass decides -----

  /** The branch a pass takes, given the copy it has read and whatever else is true: nothing, one write without a
      look at the cluster, a cleanup, or the service of an active binding. */
  datatype Decision =
    | Nothing
    | DropFinalizer
    | TakeOn // the finalizer, then Pending
    | Record(status: Status)
    | CleanUp(phase: Phase)
    | Serve

  ghost function Decide(b: Binding): Decision {
    var status, phase := b.status, b.status.phase;
    if b.deleting then
      if !b.finalizer then Nothing
      else if phase.Restored? then DropFinalizer
      else if phase.PausedPhase? then Record(RestoredStatus(status, b.generation))
      else if phase.Restoring? then CleanUp(Restoring)
      else Record(LifecycleStatus(status, b.generation, Restoring, Yes))
    else if !ValidSpec(b.spec) then Record(DegradedStatus(status, b.generation, true))
    else if !b.finalizer then TakeOn
    else if WantsPause(b) then
      if phase.PausedPhase? && status.observed == b.generation then Nothing
      else if phase.PausedPhase? || phase.Pending? || phase.NoPhase? then Record(PausedStatus(status, b.generation))
      else if phase.Pausing? then CleanUp(Pausing)
      else Record(LifecycleStatus(status, b.generation, Pausing, Yes))
    else if AwaitingRelay(b.spec) then
      if phase.Pending? && status.observed == b.generation then Nothing
      else Record(LifecycleStatus(status, b.generation, Pending, No))
    else if phase.Ready? || phase.Reconciling? then Serve
    else Record(LifecycleStatus(status, b.generation, Reconciling, Yes))
  }

  /** What a successful cleanup is recorded as. */
  function CleanedStatus(b: Binding, phase: Phase): Status {
    if phase.Restoring? then RestoredStatus(b.status, b.generation) else PausedStatus(b.status, b.generation)
  }

  /** What a cleanup has achieved. An intercept's own Service and slice are free of its marks; that nothing else
      carries them takes a safe world to start from. */
  ghost predicate CleanedUp(who: Subject, b: Binding, w: World, c: Shared) {
    && (Safe(who, w) ==> Unmarked(who, c) && !OwnSlice(who, c))
    && (Intercepting(b.spec.mode) && b.status.snapshot.Some? ==>
          && (who.service in c.services ==> !Marked(c.services[who.service], who.uid))
          && (!Records(who, b.status.snapshot.value) ==> !OwnSlice(who, c)))
  }

  /** The effect of a pass in which nothing fails and nobody interferes. */
  ghost predicate Follows(who: Subject, b: Binding, w: World, w': World)
    requires w.binding == Some(b)
  {
    match Decide(b)
    case Nothing => w' == w
    case DropFinalizer => w' == WithFinalizer(w, false)
    case TakeOn => w' == WithStatus(WithFinalizer(w, true), LifecycleStatus(b.status, b.generation, Pending, No))
    case Record(status) => w' == WithStatus(w, status)
    case CleanUp(phase) =>
      && SameElsewhere(who, w.shared, w'.shared)
      && if Undone(who, b, w.shared) then
           w'.binding == Some(b.(status := CleanedStatus(b, phase))) && CleanedUp(who, b, w, w'.shared)
         else
           w'.binding == Some(b.(status := FailedStatus(b.status, b.generation, phase))) && !Undone(who, b, w'.shared)
    case Serve => w'.binding.Some? && Attended(who, b, w.shared, w'.binding.value, w'.shared)
  }

  /** What a served binding records of its Service. */
  function ServedStatus(who: Subject, b: Binding, c: Shared): Status
    requires who.mode == Preview ==> who.service in c.services
  {
    match who.mode
    case PortForward => b.status
    case Preview => b.status.(serviceName := who.service, serviceClusterIP := c.services[who.service].clusterIP)
    case _ => b.status.(serviceName := who.service, serviceClusterIP := "")
  }

  /** A pass over an active binding stores a snapshot it lacks, serves what is attainable and else leaves Degraded
      behind, with no better chances. */
  ghost predicate Attended(who: Subject, b: Binding, c: Shared, b': Binding, c': Shared) {
    && b' == b.(status := b'.status)
    && if NeedsSnapshot(who, b) then
         && c' == c
         && (if Intercept.Capturable(b, c, who.service) then
               && b'.status.snapshot.Some? && Faithful(b'.status.snapshot.value, c, who.service)
               && b'.status == SnapshotStatus(b.status, b.generation, b'.status.snapshot.value)
             else b'.status == DegradedStatus(b.status, b.generation, false))
       else if !Determined(b) then
         c' == c && b'.status in {ReadyStatus(b.status, b.generation), DegradedStatus(b.status, b.generation, false)}
       else if Attainable(who, b, c) then
         Served(who, b, c, c') && b'.status == ReadyStatus(ServedStatus(who, b, c'), b.generation)
       else
         && b'.status == DegradedStatus(b.status, b.generation, false) && !Attainable(who, b, c')
         && (Unattainable(who, b, c) ==> c' == c)
  }

  /** The failure of an undisturbed pass over an active binding will not mend by itself: the Service in its way is
      there, rather than missing. */
  predicate Hopeless(who: Subject, c: Shared) { who.mode == Preview || who.service in c.services }

  /** Whether the operator asks for another pass after this one, when nothing fails and nobody interferes. */
  ghost predicate Answered(who: Subject, b: Binding, c: Shared, o: Outcome) {
    match Decide(b)
    case Nothing => o.Done?
    case DropFinalizer => o.Done?
    case TakeOn => o.Requeue?
    case Record(status) => if status.phase in {PausedPhase, Pending, Degraded} then o.Done? else o.Requeue?
    case CleanUp(phase) =>
      if !Undone(who, b, c) then o == Failed(Permanent) else if phase.Pausing? then o.Done? else o.Requeue?
    case Serve =>
      if !Determined(b) then !o.Requeue?
      else if NeedsSnapshot(who, b) && Intercept.Capturable(b, c, who.service) then o.Requeue?
      else if !NeedsSnapshot(who, b) && Attainable(who, b, c) then o.Done?
      else if Hopeless(who, c) then o.Done? else o == Failed(NotFound)
  }

  // ----- what a pass has done, whatever fails and whoever interferes -----

  /** Since that position of the run the binding has been served, and this is the status to show for it. */
  ghost predicate ServedSince(who: Subject, b: Binding, start: World, history: seq<Step>, from: nat, status: Status) {
    match who.mode
    case PortForward =>
      && status == b.status
      && (b.spec.target.Some? && b.spec.target.value.kind.ServiceTarget? && |b.spec.ports| == 1 ==>
            exists s :: ServiceHeld(start, history, from, who.service, s) && FindPort(s.ports, b.spec.ports[0]).Some?)
    case Preview =>
      exists s :: PreviewService.PreviewedSince(who, b, start, history, from, s) &&
                  status == b.status.(serviceName := who.service, serviceClusterIP := s.clusterIP)
    case _ =>
      && RelayReady(b.spec) && b.status.snapshot.Some?
      && Intercept.InterceptedSince(who, b, start, history, from)
      && status == b.status.(serviceName := who.service, serviceClusterIP := "")
  }

  lemma ServedStays(who: Subject, b: Binding, start: World, history: seq<Step>, history': seq<Step>, from: nat,
                    status: Status)
    requires history <= history' && ServedSince(who, b, start, history, from, status)
    ensures ServedSince(who, b, start, history', from, status)
  {
    hide ServiceHeld, PreviewService.PreviewedSince, Intercept.InterceptedSince;
    match who.mode
    case PortForward => SeenStays(start, history, from, history', from);
    case Preview =>
      var s :| PreviewService.PreviewedSince(who, b, start, history, from, s) &&
               status == b.status.(serviceName := who.service, serviceClusterIP := s.clusterIP);
      PreviewService.PreviewedStays(who, b, start, history, history', from, s);
    case _ => Intercept.InterceptedStays(who, b, start, history, history', from);
  }

  /** A binding is left alone, taken on, or shown in a status only with what belongs to that: the work of the branch
      has been done since that position of the run, and the status has been stored. */
  ghost predicate Acted(who: Subject, b: Binding, start: World, history: seq<Step>, from: nat, w: World, o: Outcome) {
    match Decide(b)
    case Nothing => o.Done?
    case DropFinalizer => !o.Requeue? && (o.Done? ==> w.binding.None?)
    case TakeOn => !o.Done? && (o.Requeue? ==> Holds(w, LifecycleStatus(b.status, b.generation, Pending, No)))
    case Record(status) =>
      if status.phase.Degraded? then o.Done?
      else
        && (if status.phase in {PausedPhase, Pending} then !o.Requeue? else !o.Done?)
        && (!o.Failed? ==> Holds(w, status))
    case CleanUp(phase) =>
      && (if phase.Pausing? then !o.Requeue? else !o.Done?)
      && (!o.Failed? ==>
            && Holds(w, CleanedStatus(b, phase))
            && (Intercepting(who.mode) && b.status.snapshot.Some? ==>
                Restore.RolledBackSince(who, b.status.snapshot.value, start, history, from)))
    case Serve =>
      && (o.Requeue? ==>
            NeedsSnapshot(who, b) &&
            exists snapshot :: Intercept.CapturedSince(who, b, start, history, from, snapshot) &&
                               Holds(w, SnapshotStatus(b.status, b.generation, snapshot)))
      && (o.Done? ==>
            || Holds(w, DegradedStatus(b.status, b.generation, false))
            || exists status :: ServedSince(who, b, start, history, from, status) &&
                                Holds(w, ReadyStatus(status, b.generation)))
  }

  /** The pass that began when the history was as long as `from`. */
  ghost predicate ActedOn(client: ApiServer, b: Binding, from: nat, o: Outcome)
    reads client
  {
    Acted(client.who, b, client.start, client.history, from, client.world, o)
  }

  // ----- what a fault-free reconcile is measured against -----

  /** The Service a port is forwarded to exists and has that port. */
  ghost predicate TargetThere(who: Subject, b: Binding, c: Shared) {
    && b.spec.target.Some? && b.spec.target.value.kind.ServiceTarget? && who.service in c.services
    && |b.spec.ports| == 1 && FindPort(c.services[who.service].ports, b.spec.ports[0]).Some?
  }

  predicate NeedsSnapshot(who: Subject, b: Binding) {
    Intercepting(who.mode) && b.status.snapshot.None?
  }

  /** The one thing the cluster in this model does not tell is whether a Pod is there. */
  predicate Determined(b: Binding) {
    b.spec.mode == PortForward ==> b.spec.target.Some? && b.spec.target.value.kind.ServiceTarget?
  }

  /** Undisturbed passes over an active binding succeed: the target has the port, the names of a preview are free or its
      own, a Service can be captured, or it still is the captured one, with all its ports and no other binding's, and
      the name of the managed slice can be used. */
  ghost predicate Attainable(who: Subject, b: Binding, c: Shared) {
    match who.mode
    case PortForward => TargetThere(who, b, c)
    case Preview => PreviewService.Previewable(b, who, c)
    case _ =>
      if b.status.snapshot.None? then Intercept.Capturable(b, c, who.service) && Intercept.SlotUsable(who, c)
      else Intercept.Relayable(b, who, c)
  }

  /** A pass over the active binding fails before it has changed anything. */
  ghost predicate Unattainable(who: Subject, b: Binding, c: Shared) {
    match who.mode
    case PortForward => Determined(b) && !TargetThere(who, b, c)
    case Preview => !PreviewService.NameFree(c, who.service, b.uid)
    case _ =>
      if b.status.snapshot.None? then !Intercept.Capturable(b, c, who.service)
      else !Intercept.Interceptable(b, c, who.service)
  }

  /** An active binding whose cluster and status are exactly as the operator leaves them. */
  ghost predicate Serving(who: Subject, b: Binding, c: Shared) {
    && b.status.phase.Ready? && Attainable(who, b, c)
    && match who.mode
       case PortForward => b.status == ReadyStatus(b.status, b.generation)
       case Preview =>
         && PreviewService.PreviewSettled(b, who, c)
         && b.status == ReadyStatus(b.status.(serviceName := who.service,
                                              serviceClusterIP := c.services[who.service].clusterIP), b.generation)
       case _ =>
         && b.status.snapshot.Some? && RelayReady(b.spec)
         && b.status == ReadyStatus(b.status.(serviceName := who.service, serviceClusterIP := ""), b.generation)
         && c == Intercept.Redirected(b, who, c)
  }

  /** A valid binding that is not deleted, is active or says nothing about it, and has its relay if its mode takes
      one. */
  predicate ToServe(b: Binding) {
    && !b.deleting && ValidSpec(b.spec)
    && (b.spec.desired.Active? || b.spec.desired.Unspecified?)
    && (b.spec.mode.PortForward? || b.spec.relay.Some?)
  }

  lemma ToServeIsLeft(b: Binding)
    ensures ToServe(b) <==> !b.deleting && ValidSpec(b.spec) && !WantsPause(b) && !AwaitingRelay(b.spec)
  {}

  /** How many reconciles an undisturbed binding still needs, at most. */
  ghost function Rank(who: Subject, w: World): nat {
    match w.binding
    case None => 0
    case Some(b) =>
      if b.deleting then
        if b.status.phase.Restored? then 1
        else if b.status.phase.PausedPhase? || b.status.phase.Restoring? then 2 else 3
      else if !ValidSpec(b.spec) then
        if b.status == DegradedStatus(b.status, b.generation, true) then 0 else 1
      else if !b.finalizer then
        1 + (if WantsPause(b) then 1 else if AwaitingRelay(b.spec) then 0 else if Intercepting(who.mode) then 3 else 2)
      else if WantsPause(b) then
        if b.status.phase.PausedPhase? && b.status.observed == b.generation then 0
        else if Resting(b.status.phase) || b.status.phase.Pausing? then 1 else 2
      else if AwaitingRelay(b.spec) then
        if b.status.phase.Pending? && b.status.observed == b.generation then 0 else 1
      else if Serving(who, b, w.shared) then 0
      else (if NeedsSnapshot(who, b) then 2 else 1) +
           (if b.status.phase.Ready? || b.status.phase.Reconciling? then 0 else 1)
  }

  /** A rollback would not be refused. */
  predicate Undone(who: Subject, b: Binding, c: Shared) { Intercepting(who.mode) ==> Restore.Undoable(who, b, c) }

  /** Left to itself the operator brings the binding to rest: a rollback it still has to do is not refused, and what an
      active binding needs is there. */
  ghost predicate Comes(who: Subject, w: World) {
    match w.binding
    case None => true
    case Some(b) =>
      if b.deleting then b.status.phase.Restored? || b.status.phase.PausedPhase? || Undone(who, b, w.shared)
      else if ToServe(b) then Attainable(who, b, w.shared)
      else if ValidSpec(b.spec) && WantsPause(b) then
        !b.finalizer || Resting(b.status.phase) || Undone(who, b, w.shared)
      else true
  }

  /** It never does. */
  ghost predicate Stuck(who: Subject, w: World) {
    !Comes(who, w) && (ToServe(w.binding.value) ==> Determined(w.binding.value))
  }

  /** Where a binding that is stuck ends up with a pass. */
  predicate StuckIn(b: Binding, phase: Phase) {
    if b.deleting then phase.Restoring?
    else if WantsPause(b) then phase.Pausing?
    else if !b.finalizer then phase.Pending? else phase.Reconciling? || phase.Degraded?
  }

  predicate SameTask(b: Binding, b': Binding) { b'.spec == b.spec && b'.deleting == b.deleting && b'.uid == b.uid }

  /** One undisturbed reconcile: at rest it changes nothing, otherwise it gets closer to rest; a binding that is stuck
      stays so. */
  ghost predicate Advances(who: Subject, w: World, w': World) {
    && (w.binding.Some? && w'.binding.Some? ==> SameTask(w.binding.value, w'.binding.value))
    && (Comes(who, w) ==>
          && Comes(who, w')
          && (if Rank(who, w) == 0 then w' == w else Rank(who, w') < Rank(who, w)))
    && (Stuck(who, w) ==>
          Stuck(who, w') && w'.binding.value.finalizer && StuckIn(w.binding.value, w'.binding.value.status.phase))
  }

  /** What one pass promises when nothing fails and nobody interferes. */
  ghost predicate Undisturbed(client: ApiServer, was: World, o: Outcome)
    reads client
  {
    client.quiet ==>
      && Advances(client.who, was, client.world)
      && (Comes(client.who, was) && o.Done? ==> Rank(client.who, client.world) == 0)
  }

  /** Of the status, only the snapshot and the recorded Service decide what can be done and undone. */
  lemma SameChances(who: Subject, b: Binding, b': Binding, c: Shared)
    requires SameTask(b, b') && b'.name == b.name
    requires b'.status.snapshot == b.status.snapshot && b'.status.serviceName == b.status.serviceName
    ensures Attainable(who, b', c) <==> Attainable(who, b, c)
    ensures Undone(who, b', c) <==> Undone(who, b, c)
  {
    assert Intercept.Capturable(b', c, who.service) <==> Intercept.Capturable(b, c, who.service);
  }

  /** The stored binding has just been read. */
  ghost predicate Fresh(client: ApiServer, b: Binding)
    reads client
  {
    client.world.binding == Some(b) && Known(client, b) && (!MayMark(client.who, b) ==> Clear(client))
  }

  lemma FreshCopy(client: ApiServer, b: Binding)
    requires client.Valid() && client.world.binding == Some(b)
    ensures Fresh(client, b)
  {
    if !MayMark(client.who, b) { RestingIsClear(client, b); }
  }

  /** Where a binding at rest is found. */
  lemma RestIs(who: Subject, w: World, b: Binding)
    requires w.binding == Some(b) && Rank(who, w) == 0
    ensures !b.deleting
    ensures if !ValidSpec(b.spec) then b.status == DegradedStatus(b.status, b.generation, true)
            else if b.spec.desired.Paused? then
              b.finalizer && b.status.phase.PausedPhase? && b.status.observed == b.generation
            else if b.spec.mode != PortForward && b.spec.relay.None? then
              b.finalizer && b.status.phase.Pending? && b.status.observed == b.generation
            else b.finalizer && Serving(who, b, w.shared) && b.status.phase.Ready?
  {}

  // ----- cleanup -----

  method Cleanup(client: ApiServer, b: Binding) returns (r: Result<()>)
    requires Fresh(client, b) && b.finalizer && !Resting(b.status.phase)
    modifies client
    ensures Known(client, b) && old(client.history) <= client.history
    ensures r.Ok? ==> Clear(client)
    ensures r.Ok? && Intercepting(client.who.mode) && b.status.snapshot.Some? ==>
              Restore.RolledBackSince(client.who, b.status.snapshot.value, client.start, client.history,
                                      |old(client.history)|)
    ensures client.quiet ==>
              && client.world.binding == old(client.world).binding
              && (r.Ok? <==> Undone(client.who, b, old(client.world).shared))
              && (r.Err? ==> !Undone(client.who, b, client.world.shared) && r.error.Permanent?)
  {
    hide Inv, Guarantee, Faithful;
    match b.spec.mode
    case PortForward =>
      return Ok(());
    case Preview =>
      r := PreviewService.DeletePreview(client, b);
    case _ =>
      if b.status.snapshot.None? {
        r := Restore.CleanupWithoutSnapshot(client, b);
      } else {
        r := Restore.RestoreService(client, b);
      }
  }

  // ----- deletion -----

  /** Restored is recorded once the cleanup has succeeded. */
  method RestoreForDeletion(client: ApiServer, b: Binding) returns (o: Outcome)
    requires Fresh(client, b) && b.finalizer && b.status.phase.Restoring?
    requires b.deleting
    modifies client
    ensures client.Valid() && old(client.history) <= client.history
    ensures client.quiet ==> Follows(client.who, b, old(client.world), client.world)
    ensures ActedOn(client, b, |old(client.history)|, o)
    ensures client.quiet ==> Answered(client.who, b, old(client.world).shared, o)
  {
    hide Inv, Guarantee, Faithful, StatusAllowed, ValidSpec, Attended, Attainable,
         Restore.RolledBackSince, Chain, Undone;
    var r := Cleanup(client, b);
    if r.Err? {
      var failed := SetFailed(client, b, Restoring);
      return Failed(r.error);
    }
    ghost var cleaned := client.history;
    r := SetRestored(client, b);
    if Intercepting(client.who.mode) && b.status.snapshot.Some? {
      Restore.RolledBackStays(client.who, b.status.snapshot.value, client.start, cleaned, client.history,
                              |old(client.history)|);
    }
    o := if r.Ok? then Requeue else Failed(r.error);
  }

  method ReconcileDeleting(client: ApiServer, b: Binding) returns (o: Outcome)
    requires Fresh(client, b) && b.deleting
    modifies client
    ensures client.Valid() && old(client.history) <= client.history
    ensures client.quiet ==> Follows(client.who, b, old(client.world), client.world)
    ensures ActedOn(client, b, |old(client.history)|, o)
    ensures client.quiet ==> Answered(client.who, b, old(client.world).shared, o)
  {
    hide Inv, Guarantee, Faithful, StatusAllowed;
    if !b.finalizer { return Done; }
    var r: Result<()>;
    if b.status.phase.Restored? {
      r := client.RemoveFinalizer();
      return if r.Ok? || r.error.NotFound? then Done else Failed(r.error);
    }
    if b.status.phase.PausedPhase? {
      r := SetRestored(client, b);
      return if r.Ok? then Requeue else Failed(r.error);
    }
    if !b.status.phase.Restoring? {
      r := SetWorking(client, b, Restoring);
      return if r.Ok? then Requeue else Failed(r.error);
    }
    o := RestoreForDeletion(client, b);
  }

  // ----- pausing -----

  /** So is Paused, and with it the snapshot goes. */
  method RestoreForPause(client: ApiServer, b: Binding) returns (o: Outcome)
    requires Fresh(client, b) && b.finalizer && b.status.phase.Pausing?
    requires !b.deleting && ValidSpec(b.spec) && WantsPause(b)
    modifies client
    ensures client.Valid() && old(client.history) <= client.history
    ensures client.quiet ==> Follows(client.who, b, old(client.world), client.world)
    ensures ActedOn(client, b, |old(client.history)|, o)
    ensures client.quiet ==> Answered(client.who, b, old(client.world).shared, o)
  {
    hide Inv, Guarantee, Faithful, StatusAllowed, ValidSpec, Attended, Attainable,
         Restore.RolledBackSince, Chain, Undone;
    var r := Cleanup(client, b);
    if r.Err? {
      var failed := SetFailed(client, b, Pausing);
      return Failed(r.error);
    }
    ghost var cleaned := client.history;
    r := SetPaused(client, b);
    if Intercepting(client.who.mode) && b.status.snapshot.Some? {
      Restore.RolledBackStays(client.who, b.status.snapshot.value, client.start, cleaned, client.history,
                              |old(client.history)|);
    }
    o := if r.Ok? then Done else Failed(r.error);
  }

  method ReconcilePaused(client: ApiServer, b: Binding) returns (o: Outcome)
    requires Fresh(client, b) && b.finalizer && !b.deleting && ValidSpec(b.spec) && WantsPause(b)
    modifies client
    ensures client.Valid() && old(client.history) <= client.history
    ensures client.quiet ==> Follows(client.who, b, old(client.world), client.world)
    ensures b.status.phase.PausedPhase? && b.status.observed == b.generation ==> client.history == old(client.history)
    ensures ActedOn(client, b, |old(client.history)|, o)
    ensures client.quiet ==> Answered(client.who, b, old(client.world).shared, o)
  {
    hide Inv, Guarantee, Faithful, StatusAllowed, ValidSpec;
    if b.status.phase.PausedPhase? && b.status.observed == b.generation { return Done; }
    var r: Result<()>;
    if b.status.phase.PausedPhase? || b.status.phase.Pending? || b.status.phase.NoPhase? {
      r := SetPaused(client, b);
      return if r.Ok? then Done else Failed(r.error);
    }
    if !b.status.phase.Pausing? {
      r := SetWorking(client, b, Pausing);
      return if r.Ok? then Requeue else Failed(r.error);
    }
    o := RestoreForPause(client, b);
  }

  // ----- serving -----

  method ValidateTarget(client: ApiServer, b: Binding) returns (r: Result<()>)
    requires Known(client, b) && b.spec.target.Some? && |b.spec.ports| >= 1
    modifies client
    ensures Known(client, b) && old(client.history) <= client.history
    ensures client.exclusive ==> client.world.shared == old(client.world).shared
    ensures client.quiet ==> client.world == old(client.world) && client.history == old(client.history)
    ensures r.Ok? && b.spec.target.value.kind.ServiceTarget? ==>
              exists s ::
                ServiceHeld(client.start, client.history, |old(client.history)|, b.spec.target.value.name, s) &&
                FindPort(s.ports, b.spec.ports[0]).Some?
    ensures b.spec.target.value.kind.OtherTarget? ==> r == Err(Permanent)
    ensures client.quiet && r.Err? && b.spec.target.value.kind.ServiceTarget? ==>
              r.error == if b.spec.target.value.name in client.world.shared.services then Permanent else NotFound
    ensures client.quiet && b.spec.target.value.kind.ServiceTarget? ==>
              (r.Ok? <==> b.spec.target.value.name in client.world.shared.services &&
                          FindPort(client.world.shared.services[b.spec.target.value.name].ports, b.spec.ports[0]).Some?)
  {
    hide Inv, Guarantee, Outside, Drifts, Faithful;
    var target := b.spec.target.value;
    match target.kind
    case PodTarget =>
      r := client.GetPod(target.name);
    case ServiceTarget =>
      var service := client.GetService(target.name);
      if service.Err? { return Err(service.error); }
      var port := FindServicePort(service.value.ports, b.spec.ports[0]);
      SeenNow(client.start, client.history, client.world, |old(client.history)|);
      r := if port.Some? then Ok(()) else Err(Permanent);
    case OtherTarget =>
      r := Err(Permanent);
  }

  /** The cluster after a successful pass over an active binding that found cluster `was`. */
  ghost predicate Served(who: Subject, b: Binding, was: Shared, c: Shared) {
    match who.mode
    case PortForward => c == was
    case Preview => PreviewService.PreviewSettled(b, who, c) &&
      (PreviewService.PreviewSettled(b, who, was) ==> c == was)
    case _ =>
      && b.status.snapshot.Some? && RelayReady(b.spec) && Intercept.Relayable(b, who, was)
      && c == Intercept.Redirected(b, who, was)
  }

  /** Recording readiness turns a served cluster into one at rest. */
  lemma ReadyIsServing(who: Subject, b: Binding, was: Shared, c: Shared)
    requires Attainable(who, b, was) && Served(who, b, was, c) && WellFormed(who, b)
    ensures Serving(who, b.(status := ReadyStatus(ServedStatus(who, b, c), b.generation)), c)
  {
    match who.mode
    case PortForward =>
    case Preview => PreviewService.SettledIsPreviewable(who, b, c);
    case _ =>
      Intercept.RedirectTwice(b, who, was);
      Intercept.RedirectedIsRelayable(b, who, was);
  }

  /** Capturing and storing the snapshot: the only thing done to a binding without one. */
  method CaptureAndPersist(client: ApiServer, b: Binding) returns (local: Binding, ghost stored: Binding, r: Result<()>)
    requires Fresh(client, b) && b.finalizer && b.spec.relay.Some?
    requires b.status.phase.Ready? || b.status.phase.Reconciling?
    requires Intercepting(client.who.mode) && b.status.snapshot.None?
    modifies client
    ensures client.Valid() && old(client.history) <= client.history
    ensures local == b.(status := local.status)
    ensures r.Err? ==> Known(client, stored) && Unstored(b, stored, local, client.who)
    ensures r.Err? && r.error.Permanent? ==> stored == b && local == b
    ensures r.Ok? ==>
              && local.status.snapshot.Some? && Holds(client.world, local.status)
              && local.status == SnapshotStatus(b.status, b.generation, local.status.snapshot.value)
              && Intercept.CapturedSince(client.who, b, client.start, client.history, |old(client.history)|,
                                         local.status.snapshot.value)
    ensures client.quiet && r.Err? ==>
              r.error == if client.who.service in client.world.shared.services then Permanent else NotFound
    ensures client.quiet ==>
              && (r.Ok? <==> Intercept.Capturable(b, old(client.world).shared, client.who.service))
              && (r.Ok? ==>
                  client.world == WithStatus(old(client.world), local.status) && local.status.snapshot.Some? &&
                            Faithful(local.status.snapshot.value, old(client.world).shared, client.who.service) &&
                            local.status == SnapshotStatus(b.status, b.generation, local.status.snapshot.value))
              && (r.Err? ==> client.world == old(client.world) && local == b && stored == b)
  {
    hide Inv, Guarantee, Outside, Drifts, StatusAllowed, Faithful, Intercept.Capturable, UserStep,
         Intercept.CapturedSince, Chain, StepOk;
    local, stored := b, b;
    var captured := Intercept.CaptureService(client, b);
    if captured.Err? { return local, b, Err(captured.error); }
    ghost var read := client.history;
    local, r := PersistSnapshot(client, b, captured.value);
    Intercept.CapturedStays(client.who, b, client.start, read, client.history, |old(client.history)|, captured.value);
    if Synced(b, client.world) { stored := b; } else { stored := local; }
  }

  /** A local copy whose edits may not have reached the API server. */
  predicate Unstored(b: Binding, stored: Binding, local: Binding, who: Subject) {
    && stored.finalizer == b.finalizer && !stored.status.phase.Restored?
    && (local.status.phase == stored.status.phase || local.status.phase == Reconciling)
    && (local.status.conditions == stored.status.conditions || local.status.conditions.progressing == Yes)
    && local.status.conditions.restored == stored.status.conditions.restored
    && (local.status.serviceName == stored.status.serviceName || local.status.serviceName == who.service)
  }

  /** Capture first, and only once the snapshot is stored, intercept. `stored` is the copy that mirrors
      the API server; `local` also carries edits that were not, or not certainly, stored. */
  method ReconcileActive(client: ApiServer, b: Binding)
    returns (local: Binding, ghost stored: Binding, complete: bool, r: Result<()>)
    requires Fresh(client, b) && b.finalizer && ValidSpec(b.spec) && !AwaitingRelay(b.spec)
    requires b.status.phase.Ready? || b.status.phase.Reconciling?
    modifies client
    ensures client.Valid() && old(client.history) <= client.history
    ensures local == b.(status := local.status)
    ensures r.Err? ==> Known(client, stored) && Unstored(b, stored, local, client.who)
    ensures r.Ok? && complete ==>
              && Known(client, b) && local.status.snapshot == b.status.snapshot
              && (local.status.serviceName == b.status.serviceName || local.status.serviceName == client.who.service)
    ensures r.Err? && r.error.Permanent? ==>
              && stored == b
              && local == b.(status := b.status.(serviceName := local.status.serviceName,
                                                 serviceClusterIP := local.status.serviceClusterIP))
    ensures r.Ok? && complete ==>
              ServedSince(client.who, b, client.start, client.history, |old(client.history)|, local.status)
    ensures r.Ok? && !complete ==>
              && NeedsSnapshot(client.who, b) && local.status.snapshot.Some? && Holds(client.world, local.status)
              && local.status == SnapshotStatus(b.status, b.generation, local.status.snapshot.value)
              && Intercept.CapturedSince(client.who, b, client.start, client.history, |old(client.history)|,
                                         local.status.snapshot.value)
    ensures client.quiet && r.Err? && Determined(b) ==>
              r.error == if Hopeless(client.who, old(client.world).shared) then Permanent else NotFound
    ensures client.quiet ==>
              && (r.Err? ==> stored == b && client.world.binding == Some(b))
              && (r.Ok? ==> client.world.binding == Some(if complete then b else local))
    ensures client.quiet && !Determined(b) ==>
              complete && client.world == old(client.world) && (r.Ok? ==> local == b)
    ensures client.quiet && Determined(b) && !NeedsSnapshot(client.who, b) ==>
              && complete && (r.Ok? <==> Attainable(client.who, b, old(client.world).shared))
              && (r.Ok? ==> Served(client.who, b, old(client.world).shared, client.world.shared) &&
                            local.status == ServedStatus(client.who, b, client.world.shared))
              && (r.Err? ==> !Attainable(client.who, b, client.world.shared))
    ensures client.quiet && NeedsSnapshot(client.who, b) ==>
              && client.world.shared == old(client.world).shared
              && (r.Ok? <==> Intercept.Capturable(b, old(client.world).shared, client.who.service))
              && (r.Ok? ==> !complete && local.status.snapshot.Some? &&
                            Faithful(local.status.snapshot.value, old(client.world).shared, client.who.service) &&
                            local.status == SnapshotStatus(b.status, b.generation, local.status.snapshot.value))
    ensures client.quiet && Serving(client.who, b, old(client.world).shared) ==>
              r.Ok? && complete && client.world == old(client.world) && client.history == old(client.history)
    ensures client.quiet && Unattainable(client.who, b, old(client.world).shared) ==>
              r.Err? && client.world == old(client.world)
    ensures client.quiet && r.Err? ==>
              local == b.(status := b.status.(serviceName := local.status.serviceName,
                                              serviceClusterIP := local.status.serviceClusterIP))
  {
    hide Inv, Guarantee, Outside, Drifts, Faithful, StatusAllowed, Intercept.Redirected, Coherent, UserStep, ValidSpec,
         Intercept.CapturedSince, Intercept.InterceptedSince, PreviewService.PreviewedSince, ServiceHeld;
    local, stored, complete := b, b, true;
    match b.spec.mode
    case PortForward =>
      r := ValidateTarget(client, b);
    case Preview =>
      ValidatedIsRelayReady(b.spec);
      var service := PreviewService.ReconcilePreview(client, b);
      if service.Err? { r := Err(service.error); return; }
      local := b.(status := b.status.(serviceName := b.spec.preview.value,
                                      serviceClusterIP := service.value.clusterIP));
      r := Ok(());
    case _ =>
      if b.status.snapshot.None? {
        local, stored, r := CaptureAndPersist(client, b);
        complete := false;
        return;
      }
      ValidatedIsRelayReady(b.spec);
      local := b.(status := b.status.(serviceName := b.spec.target.value.name, serviceClusterIP := ""));
      r := Intercept.ReconcileIntercept(client, b);
  }

  lemma ServeDecided(b: Binding)
    requires b.finalizer && ValidSpec(b.spec) && !AwaitingRelay(b.spec) && !b.deleting && !WantsPause(b)
    requires b.status.phase.Ready? || b.status.phase.Reconciling?
    ensures Decide(b).Serve?
  {}

  lemma ServingIsDetermined(client: ApiServer, b: Binding)
    requires Fresh(client, b) && Serving(client.who, b, client.world.shared)
    ensures Determined(b) && !NeedsSnapshot(client.who, b)
  {}

  /** An active binding with a relay, in one of the two serving phases. */
  method ReconcileServing(client: ApiServer, b: Binding) returns (o: Outcome)
    requires Fresh(client, b) && b.finalizer && ValidSpec(b.spec) && !AwaitingRelay(b.spec)
    requires !b.deleting && !WantsPause(b)
    requires b.status.phase.Ready? || b.status.phase.Reconciling?
    modifies client
    ensures client.Valid() && old(client.history) <= client.history
    ensures client.quiet ==> Follows(client.who, b, old(client.world), client.world)
    ensures client.quiet && Rank(client.who, old(client.world)) == 0 ==> client.history == old(client.history)
    ensures ActedOn(client, b, |old(client.history)|, o)
    ensures client.quiet ==> Answered(client.who, b, old(client.world).shared, o)
  {
    hide Inv, Guarantee, Outside, Drifts, Faithful, StatusAllowed, Served, Known, ValidSpec, Attainable, Unattainable,
         ServedSince, Intercept.CapturedSince, Hopeless, Serving, Rank, Decide, Clear,
         Coherent;
    ServeDecided(b);
    if Rank(client.who, client.world) == 0 { RestIs(client.who, client.world, b); }
    ghost var was := client.world.shared;
    if Serving(client.who, b, was) { ServingIsDetermined(client, b); }
    var local, stored, complete, r := ReconcileActive(client, b);
    if r.Ok? {
      if !complete { return Requeue; }
      ghost var served := client.history;
      if client.quiet && Serving(client.who, b, was) { ServingIsStable(client.who, b, was, client.world.shared); }
      r := SetReady(client, b, local);
      ServedStays(client.who, b, client.start, served, client.history, |old(client.history)|, local.status);
      return if r.Ok? then Done else Failed(r.error);
    }
    o := Degrade(client, b, stored, local, r.error);
  }

  /** After a failure: one that is permanent is not tried again. */
  method Degrade(client: ApiServer, ghost b: Binding, ghost stored: Binding, local: Binding, error: Error)
    returns (o: Outcome)
    requires Known(client, stored) && stored.finalizer && Unstored(b, stored, local, client.who)
    requires local == b.(status := local.status)
    requires client.quiet || error.Permanent? ==>
               && stored == b
               && local.status == b.status.(serviceName := local.status.serviceName,
                                            serviceClusterIP := local.status.serviceClusterIP)
    modifies client
    ensures client.Valid() && old(client.history) <= client.history
    ensures !o.Requeue?
    ensures o.Done? ==> error.Permanent? && Holds(client.world, DegradedStatus(b.status, b.generation, false))
    ensures client.quiet && old(client.world).binding.Some? ==>
              && o == (if error.Permanent? then Done else Failed(error))
              && client.world == WithStatus(old(client.world), DegradedStatus(b.status, b.generation, false))
  {
    hide Known;
    if client.quiet || error.Permanent? { UnstoredEditsStayUnstored(b.status, local.status, b.generation); }
    var degraded := SetDegraded(client, stored, local, false);
    o := if error.Permanent? && degraded.Ok? then Done else Failed(error);
  }

  /** Edits of the local copy that were never stored are not sent when it degrades. */
  lemma UnstoredEditsStayUnstored(stored: Status, local: Status, generation: int)
    requires local == stored.(serviceName := local.serviceName, serviceClusterIP := local.serviceClusterIP)
    ensures MergeStatus(stored, local, DegradedStatus(local, generation, false)) ==
            DegradedStatus(stored, generation, false)
  {}

  /** A pass over a binding at rest finds everything as it leaves it. */
  lemma ServingIsStable(who: Subject, b: Binding, was: Shared, c: Shared)
    requires Serving(who, b, was) && Served(who, b, was, c)
    ensures c == was && ReadyStatus(ServedStatus(who, b, c), b.generation) == b.status
  {}

  /** First contact: the finalizer goes on before anything else. */
  method Adopt(client: ApiServer, b: Binding) returns (o: Outcome)
    requires Fresh(client, b) && !b.finalizer && !b.deleting && ValidSpec(b.spec)
    modifies client
    ensures client.Valid() && old(client.history) <= client.history
    ensures client.quiet ==> Follows(client.who, b, old(client.world), client.world)
    ensures ActedOn(client, b, |old(client.history)|, o)
    ensures client.quiet ==> Answered(client.who, b, old(client.world).shared, o)
  {
    hide Inv, Guarantee, Faithful, StatusAllowed, Serving, ValidSpec;
    var r := client.AddFinalizer();
    if r.Err? { return Failed(r.error); }
    r := SetPending(client, b.(finalizer := true));
    o := if r.Ok? then Requeue else Failed(r.error);
  }

  /** An active binding whose passes fail. */
  ghost predicate Blocked(who: Subject, w: World) {
    && w.binding.Some? && !w.binding.value.deleting && w.binding.value.finalizer && ValidSpec(w.binding.value.spec)
    && !WantsPause(w.binding.value) && !AwaitingRelay(w.binding.value.spec)
    && Unattainable(who, w.binding.value, w.shared)
  }

  /** What a pass makes of such a binding: a serving phase turns Degraded, every other phase Reconciling. */
  function BlockedStatus(b: Binding): Status {
    if b.status.phase.Ready? || b.status.phase.Reconciling? then DegradedStatus(b.status, b.generation, false)
    else LifecycleStatus(b.status, b.generation, Reconciling, Yes)
  }

  /** Nothing is served without a relay; a snapshot is kept for when there is one again. */
  method AwaitRelay(client: ApiServer, b: Binding) returns (o: Outcome)
    requires Fresh(client, b) && b.finalizer && !b.deleting && ValidSpec(b.spec) && !WantsPause(b) &&
             AwaitingRelay(b.spec)
    modifies client
    ensures client.Valid() && old(client.history) <= client.history
    ensures client.quiet ==> Follows(client.who, b, old(client.world), client.world)
    ensures b.status.phase.Pending? && b.status.observed == b.generation ==> client.history == old(client.history)
    ensures ActedOn(client, b, |old(client.history)|, o)
    ensures client.quiet ==> Answered(client.who, b, old(client.world).shared, o)
    ensures client.quiet ==> client.world.shared == old(client.world).shared
  {
    hide Inv, Guarantee, Outside, Drifts, Faithful, StatusAllowed, Serving, ValidSpec;
    if !b.status.phase.Pending? || b.status.observed != b.generation {
      var pending := SetPending(client, b);
      return if pending.Ok? then Done else Failed(pending.error);
    }
    o := Done;
  }

  /** An active binding outside the two serving phases enters Reconciling first. */
  method TakeUp(client: ApiServer, b: Binding) returns (o: Outcome)
    requires Fresh(client, b) && b.finalizer && !b.deleting && ValidSpec(b.spec) && !WantsPause(b) &&
             !AwaitingRelay(b.spec)
    requires !b.status.phase.Ready? && !b.status.phase.Reconciling?
    modifies client
    ensures client.Valid() && old(client.history) <= client.history
    ensures client.quiet ==> Follows(client.who, b, old(client.world), client.world)
    ensures ActedOn(client, b, |old(client.history)|, o)
    ensures client.quiet ==> Answered(client.who, b, old(client.world).shared, o)
    ensures client.quiet ==>
              client.world == WithStatus(old(client.world), LifecycleStatus(b.status, b.generation, Reconciling, Yes))
  {
    hide Inv, Guarantee, Outside, Drifts, Faithful, StatusAllowed, Serving, ValidSpec;
    var working := SetWorking(client, b, Reconciling);
    o := if working.Ok? then Requeue else Failed(working.error);
  }

  function DesiredState(spec: Spec): Desired {
    if spec.desired.Unspecified? then Active else spec.desired
  }

  method ReconcileValid(client: ApiServer, b: Binding) returns (o: Outcome)
    requires Fresh(client, b) && !b.deleting && ValidSpec(b.spec)
    modifies client
    ensures client.Valid() && old(client.history) <= client.history
    ensures client.quiet ==> Follows(client.who, b, old(client.world), client.world)
    ensures client.quiet && Rank(client.who, old(client.world)) == 0 ==> client.history == old(client.history)
    ensures ActedOn(client, b, |old(client.history)|, o)
    ensures client.quiet ==> Answered(client.who, b, old(client.world).shared, o)
  {
    hide Inv, Guarantee, Outside, Drifts, Faithful, StatusAllowed, Serving, ValidSpec, Unattainable,
         Follows, Decide, Advances, Rank, Clear, Coherent;
    if Rank(client.who, client.world) == 0 { RestIs(client.who, client.world, b); }
    if !b.finalizer {
      o := Adopt(client, b);
      return;
    }
    if DesiredState(b.spec).Paused? {
      o := ReconcilePaused(client, b);
      return;
    }
    if b.spec.mode != PortForward && b.spec.relay.None? {
      o := AwaitRelay(client, b);
      return;
    }
    if !b.status.phase.Ready? && !b.status.phase.Reconciling? {
      o := TakeUp(client, b);
      return;
    }
    o := ReconcileServing(client, b);
  }

  /** The pass over the copy just read. */
  method ReconcileFound(client: ApiServer, b: Binding) returns (o: Outcome)
    requires Fresh(client, b)
    modifies client
    ensures client.Valid() && old(client.history) <= client.history
    ensures client.quiet ==> Follows(client.who, b, old(client.world), client.world)
    ensures client.quiet && Rank(client.who, old(client.world)) == 0 ==> client.history == old(client.history)
    ensures ActedOn(client, b, |old(client.history)|, o)
    ensures client.quiet ==> Answered(client.who, b, old(client.world).shared, o)
  {
    hide Inv, Guarantee, Outside, Drifts, Faithful, StatusAllowed, ValidSpec, Attended, CleanedUp;
    if Rank(client.who, client.world) == 0 { RestIs(client.who, client.world, b); }
    if b.deleting {
      o := ReconcileDeleting(client, b);
      return;
    }
    var valid := ValidateBinding(b.spec);
    if !valid {
      var degraded := SetDegraded(client, b, b, true);
      return Done;
    }
    o := ReconcileValid(client, b);
  }

  lemma ReadNow(client: ApiServer)
    requires client.Valid()
    ensures WorldAt(client.start, client.history, |client.history|) == client.world
  {}

  lemma StaysAt(start: World, history: seq<Step>, history': seq<Step>, at: nat)
    requires history <= history' && at <= |history|
    ensures WorldAt(start, history', at) == WorldAt(start, history, at)
  {}

  /** One pass of the operator over the binding, from a fresh read to the last status write. Every write it
      issues, and every state it leaves in between, is covered by `Valid`. */
  method Reconcile(client: ApiServer) returns (o: Outcome, ghost at: nat)
    requires client.Valid()
    modifies client
    ensures client.Valid() && old(client.history) <= client.history
    ensures |old(client.history)| <= at <= |client.history|
    ensures !o.Failed? ==>
              match WorldAt(client.start, client.history, at).binding
              case None => o.Done?
              case Some(b) => ActedOn(client, b, at, o)
    ensures old(client.world).binding.None? && client.quiet ==> client.world == old(client.world)
    ensures client.quiet && old(client.world).binding.Some? ==>
              Follows(client.who, old(client.world).binding.value, old(client.world), client.world)
    ensures client.quiet && Rank(client.who, old(client.world)) == 0 ==> client.history == old(client.history)
    ensures Undisturbed(client, old(client.world), o)
    ensures client.quiet && old(client.world).binding.Some? ==>
              var b := old(client.world).binding.value;
              && (!b.deleting && !ValidSpec(b.spec) ==>
                    client.world == WithStatus(old(client.world), DegradedStatus(b.status, b.generation, true)))
              && (old(Blocked(client.who, client.world)) ==>
                  client.world == WithStatus(old(client.world), BlockedStatus(b)))
  {
    hide Follows, Advances, Answered, Rank, Comes, Blocked, ValidSpec, Inv, Acted, WorldAt, Chain, StepOk;
    var got := client.GetBinding();
    at := |client.history|;
    ReadNow(client);
    if got.Err? {
      if client.quiet { NothingLeftToDo(client.who, client.world); }
      o := if got.error.NotFound? then Done else Failed(got.error);
      return;
    }
    var b := got.value;
    ghost var before := client.history;
    FreshCopy(client, b);
    ghost var was := client.world;
    o := ReconcileFound(client, b);
    StaysAt(client.start, before, client.history, at);
    if client.quiet {
      FollowedThrough(client.who, b, was, client.world, o);
    }
  }

  // ----- what follows for undisturbed runs -----

  lemma NothingLeftToDo(who: Subject, w: World)
    requires w.binding.None?
    ensures Advances(who, w, w) && Rank(who, w) == 0
  {}

  /** Blocked bindings and invalid specs are among the branches. */
  lemma FollowedThrough(who: Subject, b: Binding, w: World, w': World, o: Outcome)
    requires WellFormed(who, b) && w.binding == Some(b) && Follows(who, b, w, w') && Answered(who, b, w.shared, o)
    ensures Advances(who, w, w') && (Comes(who, w) && o.Done? ==> Rank(who, w') == 0)
    ensures !b.deleting && !ValidSpec(b.spec) ==> w' == WithStatus(w, DegradedStatus(b.status, b.generation, true))
    ensures Blocked(who, w) ==> w' == WithStatus(w, BlockedStatus(b))
  {
    FollowsAdvances(who, b, w, w');
    hide ValidSpec, Advances, Rank, Comes, Answered;
  }

  lemma DeletionAdvances(who: Subject, b: Binding, w: World, w': World)
    requires WellFormed(who, b) && w.binding == Some(b) && Follows(who, b, w, w') && b.deleting
    ensures Advances(who, w, w')
    ensures Answered(who, b, w.shared, Done) && Comes(who, w) ==> Rank(who, w') == 0
  {
    hide Attainable, Serving, CleanedUp, ValidSpec;
    if w'.binding.Some? && w'.shared == w.shared { SameChances(who, b, w'.binding.value, w.shared); }
    if w'.binding.Some? && w'.shared != w.shared { SameChances(who, b, w'.binding.value, w'.shared); }
  }

  lemma PauseAdvances(who: Subject, b: Binding, w: World, w': World)
    requires WellFormed(who, b) && w.binding == Some(b) && Follows(who, b, w, w')
    requires !b.deleting && ValidSpec(b.spec) && b.finalizer && WantsPause(b)
    ensures Advances(who, w, w')
    ensures Answered(who, b, w.shared, Done) && Comes(who, w) ==> Rank(who, w') == 0
  {
    hide Attainable, Serving, CleanedUp, ValidSpec, Undone;
    ToServeIsLeft(b);
    ToServeIsLeft(w'.binding.value);
    var b' := w'.binding.value;
    if Decide(b).CleanUp? && !Undone(who, b, w.shared) { SameChances(who, b, b', w'.shared); }
    if Decide(b).Record? && !Resting(b'.status.phase) { SameChances(who, b, b', w'.shared); }
  }

  /** Invalid specs, first contact, waits for a relay and the entry into the serving phases. */
  lemma RecordAdvances(who: Subject, b: Binding, w: World, w': World)
    requires WellFormed(who, b) && w.binding == Some(b) && Follows(who, b, w, w')
    requires !b.deleting && !(ValidSpec(b.spec) && b.finalizer && WantsPause(b)) && !Decide(b).Serve?
    ensures Advances(who, w, w')
    ensures Answered(who, b, w.shared, Done) && Comes(who, w) ==> Rank(who, w') == 0
  {
    hide Attainable, CleanedUp, ValidSpec, Undone;
    ToServeIsLeft(b);
    ToServeIsLeft(w'.binding.value);
    SameChances(who, b, w'.binding.value, w.shared);
  }

  /** With the snapshot taken, an intercept is one pass from rest, if the managed slice can be. */
  lemma CaptureAdvances(who: Subject, b: Binding, w: World, w': World)
    requires WellFormed(who, b) && w.binding == Some(b) && Follows(who, b, w, w') && Decide(b).Serve?
    requires NeedsSnapshot(who, b)
    ensures Advances(who, w, w')
    ensures Answered(who, b, w.shared, Done) && Comes(who, w) ==> Rank(who, w') == 0
  {
    hide ValidSpec, CleanedUp;
    ToServeIsLeft(b);
    ToServeIsLeft(w'.binding.value);
    var b' := w'.binding.value;
    if Intercept.Capturable(b, w.shared, who.service) {
      Intercept.CapturedIsRelayable(b, who, w.shared, b'.status.snapshot.value, b');
    } else {
      SameChances(who, b, b', w.shared);
    }
  }

  lemma SuccessServes(who: Subject, b: Binding, w: World, w': World)
    requires WellFormed(who, b) && w.binding == Some(b) && Follows(who, b, w, w') && Decide(b).Serve?
    requires !NeedsSnapshot(who, b) && Determined(b) && Attainable(who, b, w.shared)
    ensures w'.binding.Some? && w'.binding.value == b.(status := w'.binding.value.status)
    ensures Serving(who, w'.binding.value, w'.shared) && (Serving(who, b, w.shared) ==> w' == w)
  {
    hide ValidSpec, CleanedUp, Attainable, Serving, Served, Decide;
    ReadyIsServing(who, b, w.shared, w'.shared);
    if Serving(who, b, w.shared) { ServingIsStable(who, b, w.shared, w'.shared); }
  }

  /** A served binding is at rest, and stays there. */
  lemma SuccessAdvances(who: Subject, b: Binding, w: World, w': World)
    requires WellFormed(who, b) && w.binding == Some(b) && Follows(who, b, w, w') && Decide(b).Serve?
    requires !NeedsSnapshot(who, b) && Determined(b) && Attainable(who, b, w.shared)
    ensures Advances(who, w, w') && Rank(who, w') == 0
  {
    hide ValidSpec, Follows, Attainable, Serving;
    SuccessServes(who, b, w, w');
    ToServeIsLeft(b);
    ToServeIsLeft(w'.binding.value);
    ServingIsAttained(who, w'.binding.value, w'.shared);
  }

  lemma ServingIsAttained(who: Subject, b: Binding, c: Shared)
    requires Serving(who, b, c)
    ensures Attainable(who, b, c)
  {}

  /** A failure leaves no better chances; and whether there is a Pod is not for this model to say. */
  lemma FailureAdvances(who: Subject, b: Binding, w: World, w': World)
    requires WellFormed(who, b) && w.binding == Some(b) && Follows(who, b, w, w') && Decide(b).Serve?
    requires !NeedsSnapshot(who, b) && !(Determined(b) && Attainable(who, b, w.shared))
    ensures Advances(who, w, w') && !Comes(who, w)
  {
    hide ValidSpec, CleanedUp, Serving, Served;
    ToServeIsLeft(b);
    ToServeIsLeft(w'.binding.value);
    if Determined(b) { SameChances(who, b, w'.binding.value, w'.shared); }
  }

  lemma ServiceAdvances(who: Subject, b: Binding, w: World, w': World)
    requires WellFormed(who, b) && w.binding == Some(b) && Follows(who, b, w, w') && Decide(b).Serve?
    ensures Advances(who, w, w')
    ensures Answered(who, b, w.shared, Done) && Comes(who, w) ==> Rank(who, w') == 0
  {
    hide ValidSpec, Follows, Decide, Advances, Answered, Rank, Comes, Attainable;
    if NeedsSnapshot(who, b) {
      CaptureAdvances(who, b, w, w');
    } else if Determined(b) && Attainable(who, b, w.shared) {
      SuccessAdvances(who, b, w, w');
    } else {
      FailureAdvances(who, b, w, w');
    }
  }

  lemma FollowsAdvances(who: Subject, b: Binding, w: World, w': World)
    requires WellFormed(who, b) && w.binding == Some(b) && Follows(who, b, w, w')
    ensures Advances(who, w, w')
    ensures Answered(who, b, w.shared, Done) && Comes(who, w) ==> Rank(who, w') == 0
  {
    hide Follows, Advances, Comes, Rank, Answered, Decide, ValidSpec;
    if b.deleting {
      DeletionAdvances(who, b, w, w');
    } else if ValidSpec(b.spec) && b.finalizer && WantsPause(b) {
      PauseAdvances(who, b, w, w');
    } else if Decide(b).Serve? {
      ServiceAdvances(who, b, w, w');
    } else {
      RecordAdvances(who, b, w, w');
    }
  }
}
