/** Which DNS settings are in effect: those recorded for the session in service, unless they could not be put back. */
module SessionSettings {
  import opened Sessions
  import opened SessionRuns
  import opened SessionDeadlock

  /** What is installed is what is recorded for the session, whole and nothing else. */
  predicate AsRecorded(s: State, r: Ref) {
    s.dns == Some(r) && r in s.known && s.applied == Some(s.known[r].settings)
  }

  /** The session's DNS has been installed, and its waiter has not taken it back yet. */
  predicate InService(s: State, r: Ref) {
    && Registered(s.sessions, s.known, r)
    && var w := s.known[r].waiter;
       || w.Running? || w.Locking? || w.Marking? || w.RestoringDns?
       || (w.Unborn? && s.active.Some? && (s.active.value.pc == Spawning(r) || s.active.value.pc == Publishing(r)))
  }

  /** An update has changed what was installed and is not through. */
  predicate HalfChanged(s: State, r: Ref) {
    s.active.Some? && (s.active.value.pc == Reinstalling(r, true) || s.active.value.pc == PuttingBack(r, true))
  }

  /** The recorded settings are in effect exactly if no update is halfway and none has failed to put them back. */
  ghost predicate Agree(s: State) {
    forall r :: r in s.known && InService(s, r) ==>
      (AsRecorded(s, r) <==> r !in s.unsettled && !HalfChanged(s, r))
  }

  /** Settings that are completely installed are the recorded ones of a session, in service or not. */
  ghost predicate Whole(s: State) {
    && (s.dns.Some? && s.applied.Some? ==> AsRecorded(s, s.dns.value))
    && (forall r :: r in s.unsettled ==> Born(s.known, r))
  }

  /** An update that succeeded has not yet let go of its session. */
  predicate Updated(s: State) {
    s.active.Some? && s.active.value.request.UpdateDns? && s.active.value.pc.Unlocking? && s.active.value.pc.ok
  }

  /** It has recorded and installed what was asked for. */
  ghost predicate UpdateDone(s: State) {
    Updated(s) ==>
      var r := s.active.value.pc.ref;
      && Registered(s.sessions, s.known, r) && (s.known[r].waiter.Running? || s.known[r].waiter.Locking?)
      && s.known[r].settings == s.active.value.request.settings && AsRecorded(s, r)
  }

  ghost predicate InEffect(s: State) { Agree(s) && Whole(s) && UpdateDone(s) }

  // ----- steps that leave the DNS alone -----

  /** The places on which it depends whether a session is in service or half changed. */
  predicate Neutral(s: State) {
    s.active.Some? ==>
      var pc := s.active.value.pc;
      !pc.Spawning? && !pc.Publishing? && !pc.Reinstalling? && !pc.PuttingBack?
  }

  predicate SameRecords(known: map<Ref, Session>, known': map<Ref, Session>) {
    && known'.Keys == known.Keys
    && forall r :: r in known ==>
         known'[r].id == known[r].id && known'[r].settings == known[r].settings && known'[r].waiter == known[r].waiter
  }

  predicate SameDns(s: State, t: State) {
    t.dns == s.dns && t.applied == s.applied && t.unsettled == s.unsettled
  }

  lemma NeutralStep(s: State, t: State)
    requires InEffect(s) && Neutral(s) && Neutral(t) && !Updated(t)
    requires t.sessions == s.sessions && SameRecords(s.known, t.known) && SameDns(s, t)
    ensures InEffect(t)
  {
    forall r | r in t.known && InService(t, r)
      ensures AsRecorded(t, r) <==> r !in t.unsettled && !HalfChanged(t, r)
    {
      assert InService(s, r);
    }
  }

  /** Only the place of the request changes, and who has mu. */
  lemma NeutralTurn(s: State, t: State)
    requires InEffect(s) && Neutral(s) && Neutral(t) && !Updated(t) && t == s.(mu := t.mu, active := t.active)
    ensures InEffect(t)
  {
    NeutralStep(s, t);
  }

  lemma NextIsNeutral(request: Request, left: seq<Id>, sessions: map<Id, Ref>, known: map<Ref, Session>)
    ensures var pc := StopNext(request, left, sessions, known);
            StopsSessions(pc) || pc.Registering? || pc.Returning?
  {}

  lemma StoppingKeepsInEffect(s: State, ok: bool, debris: Debris, ids: seq<Id>, spare: Ref)
    requires InEffect(s) && CanAct(s, ok, debris, ids, spare) && s.active.value.pc.Stopping?
    ensures InEffect(ActFrom(s, ok, debris, ids, spare))
  {
    hide BuildFrom, LockedFrom, InEffect, StopNext;
    NextIsNeutral(s.active.value.request, s.active.value.pc.left, s.sessions, s.known);
    NeutralTurn(s, ActFrom(s, ok, debris, ids, spare));
  }

  lemma StopKeepsInEffect(s: State, ok: bool, debris: Debris, ids: seq<Id>, spare: Ref)
    requires InEffect(s) && CanAct(s, ok, debris, ids, spare) && StopsSessions(s.active.value.pc)
    ensures InEffect(ActFrom(s, ok, debris, ids, spare))
  {
    hide BuildFrom, LockedFrom, InEffect, StopNext;
    if s.active.value.pc.Stopping? {
      StoppingKeepsInEffect(s, ok, debris, ids, spare);
    } else {
      NeutralTurn(s, ActFrom(s, ok, debris, ids, spare));
    }
  }

  /** What is left after a change, seen from the one session in service. */
  lemma OneInService(s: State, t: State, r: Ref)
    requires forall q :: q in s.known && Registered(s.sessions, s.known, q) ==> q == r
    requires t.known.Keys == s.known.Keys && t.sessions == s.sessions
    requires forall q :: q in s.known ==> t.known[q].id == s.known[q].id
    requires AsRecorded(t, r) <==> r !in t.unsettled && !HalfChanged(t, r)
    ensures Agree(t)
  {
    forall q | q in t.known && InService(t, q) ensures q == r {
      assert Registered(s.sessions, s.known, q);
    }
  }

  // ----- a session is built -----

  /** Only the session being built is registered. */
  lemma BuiltIsAlone(s: State, r: Ref)
    requires Inv(s) && Built(s) == Some(r)
    ensures Registered(s.sessions, s.known, r) && s.known[r].waiter.Unborn?
    ensures forall q :: q in s.known && Registered(s.sessions, s.known, q) ==> q == r
  {
    hide SessionLocks, MuHeld, Platform;
  }

  lemma PreparingKeepsInEffect(s: State, ok: bool, debris: Debris, ids: seq<Id>, spare: Ref)
    requires InEffect(s) && CanAct(s, ok, debris, ids, spare)
    requires s.active.value.pc.Preparing? || s.active.value.pc.Equipping? || s.active.value.pc.Discarding?
    ensures InEffect(ActFrom(s, ok, debris, ids, spare))
  {
    hide StopFrom, LockedFrom, InEffect;
    NeutralStep(s, ActFrom(s, ok, debris, ids, spare));
  }

  /** Where the only registered session, still being built, is not in service, nothing is. */
  lemma NotYetInService(s: State, t: State, r: Ref)
    requires Inv(s) && InEffect(s) && Built(s) == Some(r) && Neutral(t) && !Updated(t)
    requires t.known == s.known && t.unsettled == s.unsettled
    requires t.sessions == s.sessions || t.sessions == s.sessions - {s.known[r].id}
    requires t.dns.Some? && t.applied.Some? ==> AsRecorded(t, t.dns.value)
    ensures InEffect(t)
  {
    BuiltIsAlone(s, r);
    hide Inv;
    forall q | q in t.known ensures !InService(t, q) {
      assert InService(t, q) ==> Registered(s.sessions, s.known, q);
    }
  }

  lemma InstallingKeepsInEffect(s: State, ok: bool, debris: Debris, ids: seq<Id>, spare: Ref)
    requires Inv(s) && InEffect(s) && CanAct(s, ok, debris, ids, spare) && s.active.value.pc.InstallingDns?
    ensures InEffect(ActFrom(s, ok, debris, ids, spare))
  {
    hide StopFrom, LockedFrom;
    var r, t := s.active.value.pc.ref, ActFrom(s, ok, debris, ids, spare);
    if ok {
      BuiltIsAlone(s, r);
      hide Inv;
      assert AsRecorded(t, r) && r !in t.unsettled;
      forall q | q in t.known && InService(t, q) ensures q == r {}
    } else {
      NotYetInService(s, t, r);
    }
  }

  lemma UndoingKeepsInEffect(s: State, ok: bool, debris: Debris, ids: seq<Id>, spare: Ref)
    requires Inv(s) && InEffect(s) && CanAct(s, ok, debris, ids, spare)
    requires s.active.value.pc.TakingDnsBack? || s.active.value.pc.Unregistering? ||
             (s.active.value.pc.Spawning? && !ok)
    ensures InEffect(ActFrom(s, ok, debris, ids, spare))
  {
    hide StopFrom, LockedFrom, Inv;
    NotYetInService(s, ActFrom(s, ok, debris, ids, spare), s.active.value.pc.ref);
  }

  /** The process is spawned: the session stays in service. */
  lemma SpawningKeepsInEffect(s: State, ok: bool, debris: Debris, ids: seq<Id>, spare: Ref)
    requires Inv(s) && InEffect(s) && CanAct(s, ok, debris, ids, spare) && s.active.value.pc.Spawning? && ok
    ensures InEffect(ActFrom(s, ok, debris, ids, spare))
  {
    hide StopFrom, LockedFrom, Inv;
    var r, t := s.active.value.pc.ref, ActFrom(s, ok, debris, ids, spare);
    BuiltIsAlone(s, r);
    assert InService(s, r) && AsRecorded(s, r) && AsRecorded(t, r);
    OneInService(s, t, r);
  }

  /** Its waiter is born. */
  lemma PublishingKeepsInEffect(s: State, ok: bool, debris: Debris, ids: seq<Id>, spare: Ref)
    requires Inv(s) && InEffect(s) && CanAct(s, ok, debris, ids, spare) && s.active.value.pc.Publishing?
    ensures InEffect(ActFrom(s, ok, debris, ids, spare))
  {
    hide StopFrom, LockedFrom, Inv;
    var r, t := s.active.value.pc.ref, ActFrom(s, ok, debris, ids, spare);
    BuiltIsAlone(s, r);
    assert InService(s, r) && AsRecorded(s, r) && AsRecorded(t, r);
    OneInService(s, t, r);
  }

  lemma BuildKeepsInEffect(s: State, ok: bool, debris: Debris, ids: seq<Id>, spare: Ref)
    requires Inv(s) && InEffect(s) && CanAct(s, ok, debris, ids, spare) && Building(s.active.value.pc)
    ensures InEffect(ActFrom(s, ok, debris, ids, spare))
  {
    hide Inv, InEffect, ActFrom, CanActAt;
    match s.active.value.pc
    case InstallingDns(_) => InstallingKeepsInEffect(s, ok, debris, ids, spare);
    case TakingDnsBack(_) => UndoingKeepsInEffect(s, ok, debris, ids, spare);
    case Unregistering(_) => UndoingKeepsInEffect(s, ok, debris, ids, spare);
    case Publishing(_) => PublishingKeepsInEffect(s, ok, debris, ids, spare);
    case Spawning(_) =>
      if ok {
        SpawningKeepsInEffect(s, ok, debris, ids, spare);
      } else {
        UndoingKeepsInEffect(s, ok, debris, ids, spare);
      }
    case _ => PreparingKeepsInEffect(s, ok, debris, ids, spare);
  }

  // ----- an update -----

  /** The session an update works on is the only one in service. */
  lemma UpdatedIsAlone(s: State, r: Ref)
    requires Inv(s) && s.active.Some?
    requires s.active.value.pc.Clearing? || s.active.value.pc.Reinstalling? || s.active.value.pc.PuttingBack?
    requires s.active.value.pc.ref == r
    ensures r in s.known && Registered(s.sessions, s.known, r) && s.active.value.request.UpdateDns?
    ensures s.known[r].waiter.Running? || s.known[r].waiter.Locking?
    ensures forall q :: q in s.known && Registered(s.sessions, s.known, q) ==> q == r
  {
    hide MuHeld, Platform;
    LockedIsRunning(s, r);
  }

  lemma ClearingKeepsInEffect(s: State, ok: bool, debris: Debris, ids: seq<Id>, spare: Ref)
    requires Inv(s) && InEffect(s) && CanAct(s, ok, debris, ids, spare) && s.active.value.pc.Clearing?
    ensures InEffect(ActFrom(s, ok, debris, ids, spare))
  {
    hide StopFrom, BuildFrom, Inv;
    var r, t := s.active.value.pc.ref, ActFrom(s, ok, debris, ids, spare);
    UpdatedIsAlone(s, r);
    assert InService(s, r);
    OneInService(s, t, r);
  }

  lemma ReinstallingKeepsInEffect(s: State, ok: bool, debris: Debris, ids: seq<Id>, spare: Ref)
    requires Inv(s) && InEffect(s) && CanAct(s, ok, debris, ids, spare) && s.active.value.pc.Reinstalling?
    ensures InEffect(ActFrom(s, ok, debris, ids, spare))
  {
    hide StopFrom, BuildFrom, Inv;
    var r, t := s.active.value.pc.ref, ActFrom(s, ok, debris, ids, spare);
    UpdatedIsAlone(s, r);
    assert InService(s, r);
    OneInService(s, t, r);
  }

  lemma PuttingBackKeepsInEffect(s: State, ok: bool, debris: Debris, ids: seq<Id>, spare: Ref)
    requires Inv(s) && InEffect(s) && CanAct(s, ok, debris, ids, spare) && s.active.value.pc.PuttingBack?
    ensures InEffect(ActFrom(s, ok, debris, ids, spare))
  {
    hide StopFrom, BuildFrom, Inv;
    var r, t := s.active.value.pc.ref, ActFrom(s, ok, debris, ids, spare);
    UpdatedIsAlone(s, r);
    assert InService(s, r);
    OneInService(s, t, r);
  }

  lemma LockedKeepsInEffect(s: State, ok: bool, debris: Debris, ids: seq<Id>, spare: Ref)
    requires Inv(s) && InEffect(s) && CanAct(s, ok, debris, ids, spare)
    requires HoldsLock(s.active.value.pc) || NeedsLock(s.active.value.pc)
    ensures InEffect(ActFrom(s, ok, debris, ids, spare))
  {
    hide Inv, InEffect, StopFrom, BuildFrom;
    match s.active.value.pc
    case Clearing(_) => ClearingKeepsInEffect(s, ok, debris, ids, spare);
    case Reinstalling(_, _) => ReinstallingKeepsInEffect(s, ok, debris, ids, spare);
    case PuttingBack(_, _) => PuttingBackKeepsInEffect(s, ok, debris, ids, spare);
    case _ => LockStepKeepsInEffect(s, ok, debris, ids, spare);
  }

  /** Taking and leaving a session's lock. */
  lemma LockStepKeepsInEffect(s: State, ok: bool, debris: Debris, ids: seq<Id>, spare: Ref)
    requires Inv(s) && InEffect(s) && CanAct(s, ok, debris, ids, spare) && Neutral(s)
    requires (HoldsLock(s.active.value.pc) && !s.active.value.pc.Clearing?) || NeedsLock(s.active.value.pc)
    ensures InEffect(ActFrom(s, ok, debris, ids, spare))
  {
    hide Inv, InEffect, ActFrom, CanActAt;
    if s.active.value.pc.Checking? || s.active.value.pc.Reading? {
      if s.active.value.pc.Reading? { AskedTheRight(s); }
      CheckedStep(s, ok, debris, ids, spare);
    } else {
      RelockedStep(s, ok, debris, ids, spare);
    }
  }

  lemma CheckedStep(s: State, ok: bool, debris: Debris, ids: seq<Id>, spare: Ref)
    requires InEffect(s) && CanAct(s, ok, debris, ids, spare)
    requires s.active.value.pc.Checking? || (s.active.value.pc.Reading? && !s.active.value.request.UpdateDns?)
    ensures InEffect(ActFrom(s, ok, debris, ids, spare))
  {
    hide InEffect, StopFrom, BuildFrom;
    NeutralTurn(s, ActFrom(s, ok, debris, ids, spare));
  }

  /** A log reader is not an update. */
  lemma AskedTheRight(s: State)
    requires Inv(s) && s.active.Some? && s.active.value.pc.Reading?
    ensures !s.active.value.request.UpdateDns?
  {
    hide Registry, SessionLocks, Platform, MuHeld;
  }

  lemma RelockedStep(s: State, ok: bool, debris: Debris, ids: seq<Id>, spare: Ref)
    requires InEffect(s) && CanAct(s, ok, debris, ids, spare)
    requires s.active.value.pc.LockingSession? || s.active.value.pc.Grabbing? || s.active.value.pc.Unlocking?
    ensures InEffect(ActFrom(s, ok, debris, ids, spare))
  {
    hide InEffect, StopFrom, BuildFrom;
    var r, t := s.active.value.pc.ref, ActFrom(s, ok, debris, ids, spare);
    var lock := if s.active.value.pc.Unlocking? then None else Some(Requester);
    assert t == WithLock(s, r, lock).(mu := t.mu, active := t.active);
    hide ActFrom, LockedFrom;
    assert t.known == s.known[r := s.known[r].(lock := lock)] && SameRecords(s.known, t.known);
    NeutralStep(s, t);
  }

  // ----- other actions -----

  lemma RegisteringKeepsInEffect(s: State, ok: bool, debris: Debris, ids: seq<Id>, spare: Ref)
    requires InEffect(s) && CanAct(s, ok, debris, ids, spare) && s.active.value.pc.Registering?
    ensures InEffect(ActFrom(s, ok, debris, ids, spare))
  {
    hide StopFrom, BuildFrom, LockedFrom;
    var t := ActFrom(s, ok, debris, ids, spare);
    if s.sessions.Keys != {} {
      NeutralStep(s, t);
    } else {
      forall q | q in t.known ensures !InService(t, q) {}
    }
  }

  lemma LookingKeepsInEffect(s: State, ok: bool, debris: Debris, ids: seq<Id>, spare: Ref)
    requires InEffect(s) && CanAct(s, ok, debris, ids, spare)
    requires s.active.value.pc.LookingUp? || s.active.value.pc.Finding? || s.active.value.pc.Opening?
    ensures InEffect(ActFrom(s, ok, debris, ids, spare))
  {
    hide StopFrom, BuildFrom, LockedFrom, InEffect;
    NeutralTurn(s, ActFrom(s, ok, debris, ids, spare));
  }

  lemma EnteringKeepsInEffect(s: State, ok: bool, debris: Debris, ids: seq<Id>, spare: Ref)
    requires InEffect(s) && CanAct(s, ok, debris, ids, spare)
    requires s.active.value.pc.Entered? || s.active.value.pc.StartingUp? || s.active.value.pc.Returning?
    ensures InEffect(ActFrom(s, ok, debris, ids, spare))
  {
    hide StopFrom, BuildFrom, LockedFrom, InEffect;
    NeutralTurn(s, ActFrom(s, ok, debris, ids, spare));
  }

  lemma OtherActsKeepInEffect(s: State, ok: bool, debris: Debris, ids: seq<Id>, spare: Ref)
    requires InEffect(s) && CanAct(s, ok, debris, ids, spare) && !StopsSessions(s.active.value.pc)
    requires Plain(s.active.value.pc) && !NeedsLock(s.active.value.pc)
    ensures InEffect(ActFrom(s, ok, debris, ids, spare))
  {
    hide ActFrom, CanActAt, InEffect;
    match s.active.value.pc
    case Registering => RegisteringKeepsInEffect(s, ok, debris, ids, spare);
    case LookingUp => LookingKeepsInEffect(s, ok, debris, ids, spare);
    case Finding => LookingKeepsInEffect(s, ok, debris, ids, spare);
    case Opening => LookingKeepsInEffect(s, ok, debris, ids, spare);
    case _ => EnteringKeepsInEffect(s, ok, debris, ids, spare);
  }

  // ----- the exit waiter -----

  /** A waiter that is still served is that of the one registered session. */
  lemma ServedIsAlone(s: State, r: Ref)
    requires Inv(s) && r in s.known && Served(s.known[r].waiter)
    ensures Registered(s.sessions, s.known, r)
    ensures forall q :: q in s.known && Registered(s.sessions, s.known, q) ==> q == r
  {
    hide SessionLocks, MuHeld, Platform, RequestBearings;
  }

  /** A waiter beyond the first steps has taken its session out of service; no update has it locked. */
  lemma WaiterHasTheLock(s: State, r: Ref)
    requires Inv(s) && CanWait(s, r)
    ensures Updated(s) ==> s.active.value.pc.ref != r
    ensures !HalfChanged(s, r)
  {
    hide Registry, MuHeld, Platform, RequestBearings;
  }

  lemma WaiterTurnsKeepInEffect(s: State, r: Ref, ok: bool, debris: Debris)
    requires Inv(s) && InEffect(s) && CanWait(s, r) && (s.known[r].waiter.Locking? || s.known[r].waiter.Marking?)
    ensures InEffect(WaitFrom(s, r, ok, debris))
  {
    var t := WaitFrom(s, r, ok, debris);
    ServedIsAlone(s, r);
    WaiterHasTheLock(s, r);
    hide Inv;
    assert InService(s, r);
    OneInService(s, t, r);
  }

  lemma WaiterRestoresKeepInEffect(s: State, r: Ref, ok: bool, debris: Debris)
    requires Inv(s) && InEffect(s) && CanWait(s, r) && s.known[r].waiter.RestoringDns?
    ensures InEffect(WaitFrom(s, r, ok, debris))
  {
    var t := WaitFrom(s, r, ok, debris);
    ServedIsAlone(s, r);
    WaiterHasTheLock(s, r);
    hide Inv;
    forall q | q in t.known ensures !InService(t, q) {
      assert InService(t, q) ==> Registered(s.sessions, s.known, q);
    }
  }

  lemma WaiterCleansKeepInEffect(s: State, r: Ref, ok: bool, debris: Debris)
    requires InEffect(s) && CanWait(s, r) && (s.known[r].waiter.CleaningRoutes? || s.known[r].waiter.RemovingFiles?)
    requires Updated(s) ==> s.active.value.pc.ref != r
    ensures InEffect(WaitFrom(s, r, ok, debris))
  {
    hide InEffect;
    NotServed(s, WaitFrom(s, r, ok, debris), r);
  }

  lemma WaiterDeletesKeepInEffect(s: State, r: Ref, ok: bool, debris: Debris)
    requires Inv(s) && InEffect(s) && CanWait(s, r) && s.known[r].waiter.Deleting?
    requires Updated(s) ==> s.active.value.pc.ref != r
    ensures InEffect(WaitFrom(s, r, ok, debris))
  {
    ServedIsAlone(s, r);
    hide InEffect, Inv;
    NotServed(s, WaitFrom(s, r, ok, debris), r);
  }

  lemma WaiterClosesKeepInEffect(s: State, r: Ref, ok: bool, debris: Debris)
    requires InEffect(s) && CanWait(s, r) && s.known[r].waiter.Closing?
    requires Updated(s) ==> s.active.value.pc.ref != r
    ensures InEffect(WaitFrom(s, r, ok, debris))
  {
    hide InEffect;
    NotServed(s, WaitFrom(s, r, ok, debris), r);
  }

  /** A session out of service changes. */
  lemma NotServed(s: State, t: State, r: Ref)
    requires InEffect(s) && r in s.known && !InService(s, r) && t.active == s.active && SameDns(s, t)
    requires Updated(s) ==> s.active.value.pc.ref != r
    requires t.known.Keys == s.known.Keys && forall q :: q in s.known && q != r ==> t.known[q] == s.known[q]
    requires t.known[r].settings == s.known[r].settings && t.known[r].id == s.known[r].id
    requires !t.known[r].waiter.Unborn? && !InService(t, r)
    requires forall q :: q in s.known && q != r ==>
               (Registered(s.sessions, s.known, q) <==> Registered(t.sessions, t.known, q))
    ensures InEffect(t)
  {
    forall q | q in t.known && InService(t, q)
      ensures AsRecorded(t, q) <==> q !in t.unsettled && !HalfChanged(t, q)
    {
      assert InService(s, q);
    }
  }

  lemma WaitKeepsInEffect(s: State, r: Ref, ok: bool, debris: Debris)
    requires Inv(s) && InEffect(s) && CanWait(s, r)
    ensures InEffect(WaitFrom(s, r, ok, debris))
  {
    hide Inv, InEffect, WaitFrom, HalfChanged;
    match s.known[r].waiter
    case Locking => WaiterTurnsKeepInEffect(s, r, ok, debris);
    case Marking => WaiterTurnsKeepInEffect(s, r, ok, debris);
    case RestoringDns => WaiterRestoresKeepInEffect(s, r, ok, debris);
    case Deleting =>
      WaiterHasTheLock(s, r);
      WaiterDeletesKeepInEffect(s, r, ok, debris);
    case Closing =>
      WaiterHasTheLock(s, r);
      WaiterClosesKeepInEffect(s, r, ok, debris);
    case _ =>
      WaiterHasTheLock(s, r);
      WaiterCleansKeepInEffect(s, r, ok, debris);
  }

  // ----- all steps -----

  /** Whatever thread moves and whatever fails, recorded and installed settings keep agreeing in this way. */
  lemma StepKeepsInEffect(s: State, step: Step)
    requires Inv(s) && InEffect(s) && Enabled(s, step)
    ensures InEffect(After(s, step))
  {
    hide Inv, ActFrom, WaitFrom, CanActAt;
    match step
    case Act(ok, debris, ids, spare) =>
      hide InEffect;
      if StopsSessions(s.active.value.pc) {
        StopKeepsInEffect(s, ok, debris, ids, spare);
      } else if Building(s.active.value.pc) {
        BuildKeepsInEffect(s, ok, debris, ids, spare);
      } else if HoldsLock(s.active.value.pc) || NeedsLock(s.active.value.pc) {
        LockedKeepsInEffect(s, ok, debris, ids, spare);
      } else {
        OtherActsKeepInEffect(s, ok, debris, ids, spare);
      }
    case Wait(r, ok, debris) => hide InEffect; WaitKeepsInEffect(s, r, ok, debris);
    case _ =>
  }

  lemma {:induction false} RunsKeepInEffect(states: seq<State>, steps: seq<Step>, i: nat)
    requires Run(states, steps) && i < |states|
    ensures InEffect(states[i])
  {
    if i > 0 {
      RunsKeepInEffect(states, steps, i - 1);
      RunsKeepInv(states, steps, i - 1);
      hide InEffect, Inv, After, Enabled;
      StepKeepsInEffect(states[i - 1], steps[i - 1]);
    }
  }

  // ----- settings that could not be put back -----

  predicate Puts(s: State, step: Step, r: Ref) {
    step.Act? && s.active.Some? && (s.active.value.pc.Reinstalling? || s.active.value.pc.PuttingBack?) &&
    s.active.value.pc.ref == r
  }

  /** Settings come to be unsettled by a failure to put them back after something was changed, and are settled by
      nothing but the next installation of that session's settings that succeeds. */
  lemma UnsettledBy(s: State, step: Step, r: Ref)
    requires Enabled(s, step) && (r in s.unsettled) != (r in After(s, step).unsettled)
    ensures Puts(s, step, r) && (step.ok <==> r in s.unsettled)
    ensures !step.ok ==> s.active.value.pc.PuttingBack? && (s.active.value.pc.touched || !step.debris.Unchanged?)
  {
    hide StopFrom, BuildFrom, LockedFrom, WaitFrom;
    match step
    case Act(ok, debris, ids, spare) =>
      var pc := s.active.value.pc;
      if StopsSessions(pc) {
        StoppingIsNoUpdate(s, s.active.value.request, pc, ok, ids);
      } else if Building(pc) {
        BuildingIsNoUpdate(s, pc, ok, debris);
      } else if HoldsLock(pc) || NeedsLock(pc) {
        OnlyPuttingDecides(s, s.active.value.request, pc, ok, debris, r);
      }
    case Wait(q, ok, debris) => WaitingIsNoUpdate(s, q, ok, debris);
    case _ =>
  }

  lemma StoppingIsNoUpdate(s: State, request: Request, pc: Pc, ok: bool, ids: seq<Id>)
    requires s.active.Some? && StopsSessions(pc) && (pc.Awaiting? ==> pc.left != [])
    ensures StopFrom(s, request, pc, ok, ids).unsettled == s.unsettled
  {}

  lemma OnlyPuttingDecides(s: State, request: Request, pc: Pc, ok: bool, debris: Debris, r: Ref)
    requires s.active.Some? && (pc.Reinstalling? ==> request.UpdateDns?) && (HoldsLock(pc) || NeedsLock(pc))
    requires pc.ref in s.known
    ensures var t := LockedFrom(s, request, pc, ok, debris);
            r in s.unsettled && r !in t.unsettled ==> ok && (pc.Reinstalling? || pc.PuttingBack?) && pc.ref == r
    ensures var t := LockedFrom(s, request, pc, ok, debris);
            r !in s.unsettled && r in t.unsettled ==>
              !ok && pc.PuttingBack? && pc.ref == r && (pc.touched || !debris.Unchanged?)
  {}

  lemma BuildingIsNoUpdate(s: State, pc: Pc, ok: bool, debris: Debris)
    requires s.active.Some? && Building(pc) && pc.ref in s.known
    ensures BuildFrom(s, pc, ok, debris).unsettled == s.unsettled
  {}

  lemma WaitingIsNoUpdate(s: State, r: Ref, ok: bool, debris: Debris)
    requires CanWait(s, r)
    ensures WaitFrom(s, r, ok, debris).unsettled == s.unsettled
  {}

  const ASKED := STARTED.(active := Some(Active(UpdateDns(0, 1), LockingSession(0))))

  /** A running session is found for an update. */
  lemma ReachAsked() returns (states: seq<State>, steps: seq<Step>)
    ensures Run(states, steps) && states[|states| - 1] == ASKED
  {
    hide Run;
    states, steps := ReachStarted();
    states, steps := Extend(states, steps, Begin(UpdateDns(0, 1)));
    states, steps := Extend(states, steps, Act(true, Unchanged, [], 0));
    states, steps := Extend(states, steps, TakeMu(Requester));
    states, steps := Extend(states, steps, Act(true, Unchanged, [], 0));
  }

  const UPDATING := STARTED.(active := Some(Active(UpdateDns(0, 1), Clearing(0))),
                             known := map[0 := Session(0, 0, Some(Requester), false, Running)])

  /** Its settings are about to be changed. */
  lemma ReachUpdating() returns (states: seq<State>, steps: seq<Step>)
    ensures Run(states, steps) && states[|states| - 1] == UPDATING
  {
    hide Run;
    states, steps := ReachAsked();
    states, steps := Extend(states, steps, Act(true, Unchanged, [], 0));
    states, steps := Extend(states, steps, TakeMu(Requester));
    states, steps := Extend(states, steps, Act(true, Unchanged, [], 0));
  }

  const HALFWAY := UPDATING.(active := Some(Active(UpdateDns(0, 1), PuttingBack(0, true))), applied := None)

  /** The old settings are gone, the new ones incomplete. */
  lemma ReachHalfway() returns (states: seq<State>, steps: seq<Step>)
    ensures Run(states, steps) && states[|states| - 1] == HALFWAY
  {
    hide Run;
    states, steps := ReachUpdating();
    states, steps := Extend(states, steps, Act(true, Unchanged, [], 0));
    states, steps := Extend(states, steps, Act(false, Incomplete, [], 0));
  }

  const REFUSED := UPDATING.(active := Some(Active(UpdateDns(0, 1), Unlocking(0, false))), applied := None,
                             unsettled := {0})

  /** Neither are in effect. */
  lemma ReachRefused() returns (states: seq<State>, steps: seq<Step>)
    ensures Run(states, steps) && states[|states| - 1] == REFUSED
  {
    hide Run;
    states, steps := ReachHalfway();
    states, steps := Extend(states, steps, Act(false, Unchanged, [], 0));
  }

  const UNSETTLED := STARTED.(applied := None, unsettled := {0})

  /** The new settings fail halfway, and putting the old ones back fails at once: the update is over, the session runs
      on, and its recorded settings are not in effect. */
  lemma UnsettledIsReachable() returns (states: seq<State>, steps: seq<Step>)
    ensures Run(states, steps) && states[|states| - 1] == UNSETTLED
    ensures InService(UNSETTLED, 0) && !AsRecorded(UNSETTLED, 0) && UNSETTLED.active.None?
  {
    hide Run;
    states, steps := ReachRefused();
    states, steps := Extend(states, steps, Act(true, Unchanged, [], 0));
    states, steps := Extend(states, steps, Act(true, Unchanged, [], 0));
  }
}
