/** Whole runs of the operator: what holds in every state reached, and where undisturbed runs end. */
module Runs {
  import opened Kube
  import opened Bindings
  import opened Safety
  import opened Writes
  import opened Api
  import opened Validation
  import opened Controller
  import Intercept
  import PreviewService

  // ----- what the invariant means -----

  /** Snapshot before mutation: a Service carrying the binding's UID, or its managed slice, is proof that
      the binding still exists, holds its finalizer and stores the snapshot of that very Service. */
  lemma SnapshotBeforeMutation(who: Subject, w: World, n: string)
    requires Safe(who, w) && Intercepting(who.mode)
    requires (n in w.shared.services && Marked(w.shared.services[n], who.uid)) || OwnSlice(who, w.shared)
    ensures w.binding.Some? && w.binding.value.finalizer && w.binding.value.status.snapshot.Some?
    ensures w.binding.value.status.phase !in {NoPhase, PausedPhase, Restored}
    ensures w.binding.value.status.phase.Pending? ==> w.binding.value.deleting || !WantsPause(w.binding.value)
    ensures var snap := w.binding.value.status.snapshot.value;
            && snap.serviceName == who.service
            && (n in w.shared.services && Marked(w.shared.services[n], who.uid) ==>
                  n == who.service && snap.serviceUid == w.shared.services[n].uid)
  {
    assert Footprint(who, w.shared);
  }

  /** So a capture, which happens only without a snapshot, never sees a Service this binding has
      emptied; and when nobody else writes, it sees the original cluster, after any number of earlier
      interceptions and restores. */
  lemma CaptureSeesTheOriginal(who: Subject, exclusive: bool, base: Shared, w: World)
    requires Inv(who, exclusive, base, w) && w.binding.Some? && Intercepting(who.mode)
    requires w.binding.value.status.snapshot.None?
    ensures Unmarked(who, w.shared) && !OwnSlice(who, w.shared)
    ensures exclusive ==> w.shared == base
  {
    assert !Footprint(who, w.shared);
    forall n | n in w.shared.services ensures !Marked(w.shared.services[n], who.uid) {}
  }

  /** Exact restoration: whenever the binding is gone or in a resting phase, the shared objects are what they
      were before it existed; but for an intercept that waits in Pending, with its snapshot, for a new relay. */
  lemma RestedIsOriginal(who: Subject, base: Shared, w: World)
    requires Inv(who, true, base, w)
    requires w.binding.None? || (Resting(w.binding.value.status.phase) && !Waiting(w.binding.value.status))
    ensures w.shared == base
  {
    if w.binding.Some? && who.mode == Preview {
      PreviewGone(who, base, w.shared);
    }
  }

  /** The conditions agree with the phase. */
  lemma ConditionsAgree(who: Subject, w: World)
    requires Safe(who, w) && w.binding.Some?
    ensures var s := w.binding.value.status; var c := s.conditions;
            && !(c.ready == Yes && c.degraded == Yes) && !(c.ready == Yes && c.paused == Yes)
            && !(c.ready == Yes && c.restored == Yes) && !(c.degraded == Yes && c.paused == Yes)
            && !(c.degraded == Yes && c.restored == Yes) && !(c.paused == Yes && c.restored == Yes)
            && (c.ready == Yes <==> s.phase.Ready?) && (c.paused == Yes <==> s.phase.PausedPhase?)
            && (c.restored == Yes <==> s.phase.Restored?)
            && (c.degraded == Yes ==> s.phase.Degraded? || s.phase.Pausing? || s.phase.Restoring?)
  {}

  /** Finalizer safety: the step that drops the finalizer finds no Service and no slice of the binding. */
  lemma FinalizerGoesLast(who: Subject, exclusive: bool, base: Shared, s: Step)
    requires StepOk(who, exclusive, base, s) && s.actor.Operator?
    requires s.pre.binding.Some? && s.pre.binding.value.finalizer
    requires s.post.binding.None? || !s.post.binding.value.finalizer
    ensures Unmarked(who, s.post.shared) && !OwnSlice(who, s.post.shared)
    ensures exclusive ==> s.post.shared == base
  {
    assert !Footprint(who, s.post.shared);
    forall n | n in s.post.shared.services ensures !Marked(s.post.shared.services[n], who.uid) {}
    if exclusive && s.post.binding.Some? && who.mode == Preview { PreviewGone(who, base, s.post.shared); }
  }

  /** Exclusion: while another binding's UID is on the Service, no step of this operator changes any
      Service, any Endpoints, or any slice but its own managed one. */
  lemma ForeignServiceUntouched(who: Subject, exclusive: bool, base: Shared, s: Step)
    requires StepOk(who, exclusive, base, s) && s.actor.Operator? && Intercepting(who.mode)
    requires who.service in s.pre.shared.services && Foreign(s.pre.shared.services[who.service], who.uid)
    ensures s.post.shared.services == s.pre.shared.services && s.post.shared.endpoints == s.pre.shared.endpoints
    ensures forall n :: n != ManagedSlice(who) ==>
              && (n in s.pre.shared.slices <==> n in s.post.shared.slices)
              && (n in s.pre.shared.slices ==> s.pre.shared.slices[n] == s.post.shared.slices[n])
  {
    var m := ManagedSlice(who);
    forall n | n != m
      ensures n in s.pre.shared.slices <==> n in s.post.shared.slices
      ensures n in s.pre.shared.slices ==> s.pre.shared.slices[n] == s.post.shared.slices[n]
    {
      assert n in s.pre.shared.slices <==> n in s.pre.shared.slices - {m};
      assert n in s.post.shared.slices <==> n in s.post.shared.slices - {m};
      if n in s.pre.shared.slices {
        assert (s.pre.shared.slices - {m})[n] == (s.post.shared.slices - {m})[n];
      }
    }
  }

  /** A slice that is neither the managed one nor named in the snapshot, and has never been seen labelled with the
      Service, is left alone by every step of the operator. */
  lemma UnrelatedSlicesStay(who: Subject, exclusive: bool, base: Shared, history: seq<Step>, i: nat, n: string)
    requires DeletionsJustified(who, history) && i < |history|
    requires StepOk(who, exclusive, base, history[i]) && history[i].actor.Operator?
    requires n in history[i].pre.shared.slices && n != ManagedSlice(who)
    requires Intercepting(who.mode) ==> !LabelledWithin(who, history[..i + 1], n)
    requires Intercepting(who.mode) ==> forall s :: !Saved(history[i].pre.binding, n, s)
    ensures n in history[i].post.shared.slices
    ensures history[i].post.shared.slices[n] == history[i].pre.shared.slices[n]
  {
    assert !Deletes(history[i], n);
    hide Inv;
    var pre, post := history[i].pre, history[i].post;
    assert SlicesFramed(who, pre, post);
    assert Intercepting(who.mode) ==> !Saved(pre.binding, n, post.shared.slices[n]);
  }

  /** The operator working for another binding, of whatever mode, is one of the outsiders this binding tolerates, as
      long as the other's snapshot does not hold this binding's managed slice. So the invariant of every binding
      survives the interleaved reconciles of all others. */
  lemma OtherBindingsAreOutsiders(who: Subject, other: Subject, w: World, shared': Shared, b: Option<Binding>,
                                  b': Option<Binding>)
    requires Safe(who, w) && other.uid != who.uid && other.uid != ""
    requires Guarantee(other, World(b, w.shared), World(b', shared'))
    requires b.Some? && b.value.status.snapshot.Some? ==> !Records(who, b.value.status.snapshot.value)
    ensures Outside(who, false, w, World(w.binding, shared'))
    ensures Safe(who, World(w.binding, shared'))
  {
    var w' := World(w.binding, shared');
    forall n | n in shared'.services && Marked(shared'.services[n], who.uid)
      ensures n in w.shared.services && SameMarks(w.shared.services[n], shared'.services[n])
    {
      assert Foreign(shared'.services[n], other.uid);
    }
    OthersKeepTheSlice(who, other, World(b, w.shared), World(b', shared'));
    OutsideKeepsSafe(who, false, w, w');
  }

  lemma OthersKeepTheSlice(who: Subject, other: Subject, w: World, w': World)
    requires other.uid != who.uid && SlicesFramed(other, w, w')
    requires w.binding.Some? && w.binding.value.status.snapshot.Some? ==>
               !Records(who, w.binding.value.status.snapshot.value)
    ensures OwnSliceKept(who, w.shared, w'.shared)
  {
    var n := ManagedSlice(who);
    assert n != ManagedSlice(other) by {
      assert n[9..] == who.uid && ManagedSlice(other)[9..] == other.uid;
    }
  }

  // ----- runs -----

  /** Any number of reconciles, each with any failures and possibly cut short anywhere, interleaved with
      any steps of users, other controllers and other bindings: every single write along the way was
      allowed and every state reached satisfies the invariant. */
  method Run(client: ApiServer, steps: nat)
    requires client.Valid() && client.history == []
    modifies client
    ensures client.Valid()
    ensures forall i :: 0 <= i < |client.history| ==>
              StepOk(client.who, client.exclusive, client.base, client.history[i])
    ensures forall i :: 0 < i < |client.history| ==> client.history[i].pre == client.history[i - 1].post
    ensures |client.history| > 0 ==> client.history[|client.history| - 1].post == client.world
    ensures DeletionsJustified(client.who, client.history)
  {
    hide Inv, StepOk, DeletionsJustified;
    for i := 0 to steps
      invariant client.Valid()
    {
      client.Outsiders();
      var o, at := Reconcile(client);
    }
  }

  // ----- undisturbed runs -----

  lemma RankBound(who: Subject, w: World)
    ensures Rank(who, w) <= 4 && (w.binding.None? ==> Rank(who, w) == 0)
    ensures w.binding.Some? && w.binding.value.deleting ==> 1 <= Rank(who, w) <= 3
    ensures w.binding.Some? && !w.binding.value.deleting && ValidSpec(w.binding.value.spec) &&
            WantsPause(w.binding.value) ==>
              Rank(who, w) <= 2
    ensures Rank(who, w) == 0 && w.binding.Some? ==>
              !w.binding.value.deleting && (ValidSpec(w.binding.value.spec) ==> w.binding.value.finalizer)
  {}

  /** Where an undisturbed binding comes to rest. */
  lemma RestMeans(who: Subject, w: World, b: Binding)
    requires Safe(who, w) && w.binding == Some(b) && Rank(who, w) == 0
    ensures !b.deleting && b.status.observed == b.generation
    ensures !ValidSpec(b.spec) ==> b.status.phase.Degraded? && b.status.conditions.accepted == No
    ensures ValidSpec(b.spec) && b.spec.desired.Paused? ==> b.status.phase.PausedPhase? && !Footprint(who, w.shared)
    ensures ValidSpec(b.spec) && !b.spec.desired.Paused? && b.spec.mode != PortForward && b.spec.relay.None? ==>
              b.status.phase.Pending? && (Footprint(who, w.shared) ==> b.status.snapshot.Some?)
    ensures ValidSpec(b.spec) && !b.spec.desired.Paused? && (b.spec.mode == PortForward || b.spec.relay.Some?) ==>
              b.status.phase.Ready? && Serving(who, b, w.shared)
  {
    RankBound(who, w);
    ToServeIsLeft(b);
  }

  /** All that is needed to undo an interception is still there. */
  predicate Recoverable(who: Subject, base: Shared, w: World, b: Binding) {
    && b.finalizer && b.status.snapshot.Some? && Faithful(b.status.snapshot.value, base, who.service)
    && PartlyHijacked(who, base, w.shared)
  }

  /** When nobody else has written the shared objects, their state at rest is known exactly. */
  lemma RestedExactly(who: Subject, base: Shared, w: World, b: Binding)
    requires Inv(who, true, base, w) && w.binding == Some(b) && Rank(who, w) == 0 && ValidSpec(b.spec)
    ensures b.spec.desired.Paused? ==> w.shared == base
    ensures !b.spec.desired.Paused? && b.spec.mode != PortForward && b.spec.relay.None? ==>
              if b.status.snapshot.None? then w.shared == base else Recoverable(who, base, w, b)
    ensures ToServe(b) && Intercepting(who.mode) ==>
              && who.service in base.services && Resolvable(base.services[who.service].ports, b.spec.ports)
              && RelayReady(b.spec) && w.shared == Intercept.Redirected(b, who, base)
  {
    hide ValidSpec, Rank, Serving;
    RestMeans(who, w, b);
    if Resting(b.status.phase) && !Waiting(b.status) { RestedIsOriginal(who, base, w); }
    if ToServe(b) && Intercepting(who.mode) { ServedExactly(who, base, w, b); }
  }

  lemma ServedExactly(who: Subject, base: Shared, w: World, b: Binding)
    requires Inv(who, true, base, w) && w.binding == Some(b) && Intercepting(who.mode) && Serving(who, b, w.shared)
    ensures who.service in base.services && Resolvable(base.services[who.service].ports, b.spec.ports)
    ensures RelayReady(b.spec) && w.shared == Intercept.Redirected(b, who, base)
  {
    hide Safe, Pristine, Faithful, Intercept.Redirected, SlicesPart, EndpointsPart;
    assert PartlyHijacked(who, base, w.shared);
    Intercept.RedirectedFromAnywhere(b, who, base, w.shared);
  }

  /** A pass that may as well be the last one. */
  method Pass(client: ApiServer)
    requires client.Valid() && client.quiet
    modifies client
    ensures client.Valid() && Advances(client.who, old(client.world), client.world)
    ensures Comes(client.who, old(client.world)) && Rank(client.who, old(client.world)) == 0 ==>
              client.world == old(client.world) && client.history == old(client.history)
    ensures old(client.world).binding.None? ==> client.world == old(client.world)
    ensures old(client.world).binding.Some? && !old(client.world).binding.value.deleting ==> client.world.binding.Some?
  {
    hide Inv, ValidSpec, Rank, Comes, Stuck, Follows;
    ghost var before := client.world;
    var o, at := Reconcile(client);
    if before.binding.Some? && !before.binding.value.deleting {
      NotGone(client.who, before.binding.value, before, client.world);
    }
  }

  lemma NotGone(who: Subject, b: Binding, w: World, w': World)
    requires w.binding == Some(b) && !b.deleting && Follows(who, b, w, w')
    ensures w'.binding.Some?
  {
    hide ValidSpec;
  }

  predicate PhaseIn(w: World, phases: set<Phase>) { w.binding.Some? && w.binding.value.status.phase in phases }

  /** After i passes over a binding that was stuck at the start. */
  ghost predicate StuckSince(who: Subject, w: World, now: World, i: nat) {
    && w.binding.Some? && now.binding.Some? && Stuck(who, now) && SameTask(w.binding.value, now.binding.value)
    && (i >= 1 ==> now.binding.value.finalizer)
    && (i >= 1 && (w.binding.value.deleting || WantsPause(w.binding.value)) ==>
          StuckIn(w.binding.value, now.binding.value.status.phase))
    && (i >= 2 ==> StuckIn(w.binding.value.(finalizer := true), now.binding.value.status.phase))
  }

  lemma StuckOn(who: Subject, w: World, before: World, now: World, i: nat)
    requires StuckSince(who, w, before, i) && Advances(who, before, now)
    ensures StuckSince(who, w, now, i + 1)
  {
    hide ValidSpec, Rank;
  }

  lemma StuckForGood(who: Subject, w: World, now: World, i: nat)
    requires StuckSince(who, w, now, i) && i >= 2
    ensures Rank(who, now) > 0 && !Comes(who, now)
  {
  }

  /** Any number of passes. */
  method Passes(client: ApiServer, passes: nat)
    requires client.Valid() && client.quiet
    requires Comes(client.who, client.world) || Stuck(client.who, client.world)
    modifies client
    ensures client.Valid()
    ensures Comes(client.who, old(client.world)) ==>
              && Comes(client.who, client.world)
              && Rank(client.who, client.world) <=
                 if passes < Rank(client.who, old(client.world)) then Rank(client.who, old(client.world)) - passes
                 else 0
    ensures !Comes(client.who, old(client.world)) ==> StuckSince(client.who, old(client.world), client.world, passes)
    ensures old(client.world).binding.None? ==> client.world.binding.None?
    ensures old(client.world).binding.Some? && client.world.binding.Some? ==>
              SameTask(old(client.world).binding.value, client.world.binding.value)
    ensures old(client.world).binding.Some? && !old(client.world).binding.value.deleting ==> client.world.binding.Some?
  {
    ghost var w, comes := client.world, Comes(client.who, client.world);
    ghost var rank := Rank(client.who, w);
    assert !comes ==> w.binding.Some?;
    hide Inv, ValidSpec, Rank, Comes, Stuck;
    for i := 0 to passes
      invariant client.Valid()
      invariant comes ==>
                  Comes(client.who, client.world) && Rank(client.who, client.world) <= if i < rank then rank - i else 0
      invariant !comes ==> StuckSince(client.who, w, client.world, i)
      invariant w.binding.None? ==> client.world.binding.None?
      invariant w.binding.Some? && client.world.binding.Some? ==>
                  SameTask(w.binding.value, client.world.binding.value)
      invariant w.binding.Some? && !w.binding.value.deleting ==> client.world.binding.Some?
    {
      ghost var before := client.world;
      Pass(client);
      if !comes { StuckOn(client.who, w, before, client.world, i); }
    }
  }

  /** Whoever has written what before: when nothing fails and nobody interferes any more, a binding comes to rest within
      four passes exactly if it comes to rest at all, that is, if no rollback it still has to do is refused and what it
      needs to serve is there. Otherwise it stays in Restoring or Pausing, or goes on
      between Reconciling and Degraded. */
  method SettleExactly(client: ApiServer, passes: nat)
    requires client.Valid() && client.quiet && passes >= 4
    requires client.world.binding.Some? && ToServe(client.world.binding.value) ==>
               Determined(client.world.binding.value)
    modifies client
    ensures client.Valid()
    ensures Rank(client.who, client.world) == 0 <==> Comes(client.who, old(client.world))
    ensures Rank(client.who, client.world) > 0 ==>
              Stuck(client.who, client.world) &&
              PhaseIn(client.world, if old(client.world).binding.value.deleting then {Restoring}
                                    else if old(client.world).binding.value.spec.desired.Paused? then {Pausing}
                                    else {Reconciling, Degraded})
  {
    RankBound(client.who, client.world);
    ghost var w := client.world;
    assert !Comes(client.who, w) ==> Stuck(client.who, w) && w.binding.Some?;
    hide Inv, ValidSpec, Rank, Comes, Stuck;
    Passes(client, passes);
    if !Comes(client.who, w) { StuckForGood(client.who, w, client.world, passes); }
  }

  /** So four passes are enough. */
  method Settle(client: ApiServer)
    requires client.Valid() && client.quiet && Comes(client.who, client.world)
    modifies client
    ensures client.Valid() && Rank(client.who, client.world) == 0 && Comes(client.who, client.world)
    ensures old(client.world).binding.Some? && old(client.world).binding.value.deleting ==> client.world.binding.None?
  {
    RankBound(client.who, client.world);
    hide Inv, ValidSpec, Rank, Comes;
    Passes(client, 4);
    RankBound(client.who, client.world);
  }

  /** An undisturbed deletion is over after three passes exactly if its rollback is not refused or none is left to do;
      otherwise it stays in Restoring. */
  method FinishDeletion(client: ApiServer, passes: nat)
    requires client.Valid() && client.quiet && passes >= 3
    requires client.world.binding.Some? && client.world.binding.value.deleting
    modifies client
    ensures client.Valid()
    ensures var b, c := old(client.world).binding.value, old(client.world).shared;
            client.world.binding.None? <==>
              b.status.phase.Restored? || b.status.phase.PausedPhase? || Undone(client.who, b, c)
    ensures client.world.binding.Some? ==> PhaseIn(client.world, {Restoring})
    ensures client.world.binding.None? ==> !Footprint(client.who, client.world.shared)
    ensures client.exclusive ==> client.world.binding.None? && client.world.shared == client.base
  {
    ghost var w := client.world;
    assert Comes(client.who, w) || Stuck(client.who, w);
    RankBound(client.who, w);
    if client.exclusive { AlwaysUndone(client.who, client.base, w, w.binding.value); }
    hide Inv, ValidSpec, Rank, Stuck, Undone;
    Passes(client, passes);
    RankBound(client.who, client.world);
    if client.world.binding.None? { GoneWithoutTrace(client); }
  }

  lemma GoneWithoutTrace(client: ApiServer)
    requires client.Valid() && client.world.binding.None?
    ensures !Footprint(client.who, client.world.shared)
    ensures client.exclusive ==> client.world.shared == client.base
  {}

  /** An undisturbed pause is over after two passes exactly if its rollback is not refused or none is left to do;
      otherwise it stays in Pausing. */
  method FinishPause(client: ApiServer, passes: nat)
    requires client.Valid() && client.quiet && passes >= 2 && client.world.binding.Some?
    requires var b := client.world.binding.value; !b.deleting && ValidSpec(b.spec) && b.spec.desired.Paused?
    modifies client
    ensures client.Valid() && client.world.binding.Some?
    ensures var b, c := old(client.world).binding.value, old(client.world).shared;
            PhaseIn(client.world, {PausedPhase}) <==>
              !b.finalizer || Resting(b.status.phase) || Undone(client.who, b, c)
    ensures PhaseIn(client.world, {Pausing, PausedPhase})
    ensures PhaseIn(client.world, {PausedPhase}) ==> !Footprint(client.who, client.world.shared)
  {
    ghost var w := client.world;
    RankBound(client.who, w);
    assert Comes(client.who, w) || Stuck(client.who, w);
    hide Inv, Rank, Stuck, ValidSpec, Undone;
    Passes(client, passes);
    SafeNow(client);
    if Comes(client.who, w) { RestMeans(client.who, client.world, client.world.binding.value); }
  }

  /** A valid binding with whatever relay it takes, of which nobody says that it is to be paused, serves after four
      undisturbed passes exactly if what it needs is there; otherwise it goes on between Reconciling and Degraded. */
  method FinishService(client: ApiServer, passes: nat)
    requires client.Valid() && client.quiet && passes >= 4 && client.world.binding.Some?
    requires var b := client.world.binding.value;
             && !b.deleting && ValidSpec(b.spec) && (b.spec.desired.Unspecified? || b.spec.desired.Active?)
             && (b.spec.mode.PortForward? || b.spec.relay.Some?) && Determined(b)
    modifies client
    ensures client.Valid() && client.world.binding.Some?
    ensures PhaseIn(client.world, {Ready}) <==>
              Attainable(client.who, old(client.world).binding.value, old(client.world).shared)
    ensures PhaseIn(client.world, {Ready}) ==> Serving(client.who, client.world.binding.value, client.world.shared)
    ensures PhaseIn(client.world, {Ready, Reconciling, Degraded})
  {
    ghost var w := client.world;
    RankBound(client.who, w);
    assert Comes(client.who, w) || Stuck(client.who, w);
    assert Comes(client.who, w) <==> Attainable(client.who, w.binding.value, w.shared);
    hide Inv, Rank, Stuck, ValidSpec, Attainable;
    Passes(client, passes);
    SafeNow(client);
    if Comes(client.who, w) {
      RestMeans(client.who, client.world, client.world.binding.value);
    } else {
      StuckForGood(client.who, w, client.world, passes);
    }
  }

  /** No pass over a binding of which nobody says so takes it anywhere near a pause. */
  lemma ActiveIsNeverPaused(who: Subject, b: Binding, start: World, history: seq<Step>, from: nat, w: World, o: Outcome)
    requires !b.deleting && (b.spec.desired.Unspecified? || b.spec.desired.Active?)
    requires Acted(who, b, start, history, from, w, o) && !o.Failed? && ValidSpec(b.spec)
    ensures if Decide(b).Nothing? then b.status.phase.Pending?
            else w.binding.Some? && w.binding.value.status.phase in {Pending, Reconciling, Ready, Degraded}
  {
    hide ValidSpec, ServedSince, Intercept.CapturedSince;
  }

  lemma SafeNow(client: ApiServer)
    requires client.Valid()
    ensures Safe(client.who, client.world)
  {}

  // ----- what exclusive runs come to -----

  /** Nothing in the original cluster stands in the way of an active binding. */
  ghost predicate Serviceable(who: Subject, base: Shared, b: Binding) {
    match who.mode
    case PortForward => TargetThere(who, b, base)
    case Preview => who.service !in base.services
    case _ =>
      if b.status.snapshot.None? then Intercept.Capturable(b, base, who.service)
      else who.service in base.services && Resolvable(base.services[who.service].ports, b.spec.ports)
  }

  /** When nobody else has written the shared objects, no rollback is refused. */
  lemma AlwaysUndone(who: Subject, base: Shared, w: World, b: Binding)
    requires Inv(who, true, base, w) && w.binding == Some(b)
    ensures Undone(who, b, w.shared)
  {
  }

  /** And the present cluster tells what the original one does. */
  lemma AttainableMeansServiceable(who: Subject, base: Shared, w: World, b: Binding)
    requires Inv(who, true, base, w) && w.binding == Some(b)
    ensures Attainable(who, b, w.shared) <==> Serviceable(who, base, b)
  {
    match who.mode
    case PortForward =>
    case Preview => TakenNames(who, base, w, b);
    case _ =>
      if b.status.snapshot.None? { CaptureSeesTheOriginal(who, true, base, w); }
  }

  lemma TakenNames(who: Subject, base: Shared, w: World, b: Binding)
    requires Inv(who, true, base, w) && w.binding == Some(b) && who.mode == Preview
    ensures PreviewService.Previewable(b, who, w.shared) <==> who.service !in base.services
  {
  }

  /** So in an exclusive run a binding comes to rest exactly if it is not to serve or is serviceable. */
  lemma ComesExclusively(who: Subject, base: Shared, w: World)
    requires Inv(who, true, base, w)
    ensures Comes(who, w) <==>
              w.binding.None? || !ToServe(w.binding.value) || Serviceable(who, base, w.binding.value)
  {
    if w.binding.Some? {
      AlwaysUndone(who, base, w, w.binding.value);
      AttainableMeansServiceable(who, base, w, w.binding.value);
    }
  }
}
