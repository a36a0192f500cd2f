/** What the helper's answers mean, and what a session has while it is in service. */
module SessionAnswers {
  import opened Sessions
  import opened SessionRuns
  import opened SessionSettings
  import opened SessionDeadlock

  // ----- where the active request goes -----

  /** The session a request is busy with. */
  function Of(pc: Pc): Ref { if Building(pc) || HoldsLock(pc) || NeedsLock(pc) then pc.ref else 0 }

  /** Neither stopping nor building a session, nor working on one. */
  predicate Elsewhere(pc: Pc) { !StopsSessions(pc) && !Building(pc) && !HoldsLock(pc) && !NeedsLock(pc) }

  lemma ActIs(s: State, ok: bool, debris: Debris, ids: seq<Id>, spare: Ref)
    requires CanAct(s, ok, debris, ids, spare)
    ensures var request, pc, t := s.active.value.request, s.active.value.pc, ActFrom(s, ok, debris, ids, spare);
            && (StopsSessions(pc) ==> t == StopFrom(s, request, pc, ok, ids))
            && (Building(pc) ==> t == BuildFrom(s, pc, ok, debris))
            && (HoldsLock(pc) || NeedsLock(pc) ==> t == LockedFrom(s, request, pc, ok, debris))
  {
    hide StopFrom, BuildFrom, LockedFrom;
  }

  /** There the request changes nothing but its own place, who has mu and, when it registers one, the sessions. */
  lemma ElsewhereKeeps(s: State, ok: bool, debris: Debris, ids: seq<Id>, spare: Ref)
    requires CanAct(s, ok, debris, ids, spare) && Elsewhere(s.active.value.pc)
    ensures var request, pc, t := s.active.value.request, s.active.value.pc, ActFrom(s, ok, debris, ids, spare);
            && t == s.(mu := t.mu, active := t.active, sessions := t.sessions, known := t.known)
            && (if pc.Registering? && s.sessions.Keys == {} then
                  && request.Start? && spare !in s.known && t.sessions == s.sessions[request.id := spare]
                  && t.known == s.known[spare := Session(request.id, request.settings, None, false, Unborn)]
                else t.sessions == s.sessions && t.known == s.known)
  {
    if s.active.value.pc.Registering? {
      RegisteringKeeps(s, ok, debris, ids, spare);
    } else {
      TurningKeeps(s, ok, debris, ids, spare);
    }
    hide ActFrom;
  }

  lemma RegisteringKeeps(s: State, ok: bool, debris: Debris, ids: seq<Id>, spare: Ref)
    requires CanAct(s, ok, debris, ids, spare) && s.active.value.pc.Registering?
    ensures var request, t := s.active.value.request, ActFrom(s, ok, debris, ids, spare);
            && t == s.(mu := t.mu, active := t.active, sessions := t.sessions, known := t.known)
            && (if s.sessions.Keys == {} then
                  && request.Start? && spare !in s.known && t.sessions == s.sessions[request.id := spare]
                  && t.known == s.known[spare := Session(request.id, request.settings, None, false, Unborn)]
                else t.sessions == s.sessions && t.known == s.known)
  {
    hide StopFrom, BuildFrom, LockedFrom, Enter;
  }

  lemma TurningKeeps(s: State, ok: bool, debris: Debris, ids: seq<Id>, spare: Ref)
    requires CanAct(s, ok, debris, ids, spare) && Elsewhere(s.active.value.pc) && !s.active.value.pc.Registering?
    ensures var t := ActFrom(s, ok, debris, ids, spare); t == s.(mu := t.mu, active := t.active)
  {
    hide StopFrom, BuildFrom, LockedFrom, Enter;
  }

  lemma ElsewhereMoves(s: State, ok: bool, debris: Debris, ids: seq<Id>, spare: Ref)
    requires CanAct(s, ok, debris, ids, spare) && Elsewhere(s.active.value.pc)
    ensures var request, pc, t := s.active.value.request, s.active.value.pc, ActFrom(s, ok, debris, ids, spare);
            t.active.Some? ==>
              && t.active.value.late == s.active.value.late
              && (Building(t.active.value.pc) ==>
                    pc.Registering? && s.sessions.Keys == {} && t.active.value.pc == Preparing(spare))
  {
    hide StopFrom, BuildFrom, LockedFrom, Enter;
    EnteringBuildsNothing(s.active.value.request, s.closing, ok);
  }

  lemma EnteringBuildsNothing(request: Request, closing: bool, ok: bool)
    ensures !Building(Enter(request, closing, ok))
  {}

  /** A session that could not be built is being taken back. */
  predicate Undoing(pc: Pc) { pc.TakingDnsBack? || pc.Discarding? || pc.Unregistering? }

  /** A request that builds a session goes on building it and waits for it to come up; from its first failure on it
      takes back what it has done, and fails. */
  predicate GoesOnBuilding(pc: Pc, ok: bool, next: Pc) {
    if pc.Unregistering? then next == Returning(false)
    else if pc.Publishing? then next == StartingUp(Of(pc))
    else Building(next) && !next.Preparing? && Of(next) == Of(pc) && (Undoing(next) <==> Undoing(pc) || !ok)
  }

  lemma BuildMoves(s: State, pc: Pc, ok: bool, debris: Debris)
    requires s.active.Some? && Building(pc) && pc.ref in s.known
    ensures var t := BuildFrom(s, pc, ok, debris);
            && t.active.Some? && t.active.value == s.active.value.(pc := t.active.value.pc)
            && GoesOnBuilding(pc, ok, t.active.value.pc)
  {}

  lemma BuildKeeps(s: State, pc: Pc, ok: bool, debris: Debris)
    requires s.active.Some? && Building(pc) && pc.ref in s.known
    ensures var t := BuildFrom(s, pc, ok, debris);
            && t.sessions.Keys <= s.sessions.Keys && (!pc.Unregistering? ==> t.sessions == s.sessions)
            && (forall r :: r in s.known ==> r in t.known && t.known[r].id == s.known[r].id)
            && (forall r :: r in s.known ==> t.known[r].settings == s.known[r].settings)
  {}

  /** A request that has a session's lock, or takes it, keeps it until it answers. */
  predicate GoesOnLocked(pc: Pc, next: Pc) {
    if pc.Unlocking? then next == Returning(pc.ok) else HoldsLock(next) && Of(next) == Of(pc)
  }

  lemma LockedMoves(s: State, request: Request, pc: Pc, ok: bool, debris: Debris)
    requires s.active.Some? && (HoldsLock(pc) || NeedsLock(pc)) && pc.ref in s.known
    requires pc.Reinstalling? ==> request.UpdateDns?
    ensures var t := LockedFrom(s, request, pc, ok, debris);
            && t.active.Some? && t.active.value == s.active.value.(pc := t.active.value.pc)
            && GoesOnLocked(pc, t.active.value.pc)
  {}

  lemma DnsCallsKeep(s: State, r: Ref, ok: bool, debris: Debris)
    ensures RestoreDns(s, r, ok, debris) ==
            s.(dns := RestoreDns(s, r, ok, debris).dns, applied := RestoreDns(s, r, ok, debris).applied,
               dnsStuck := RestoreDns(s, r, ok, debris).dnsStuck)
    ensures forall d :: ApplyDns(s, r, d, ok, debris) ==
              s.(dns := ApplyDns(s, r, d, ok, debris).dns, applied := ApplyDns(s, r, d, ok, debris).applied)
  {}

  lemma LockedKeeps(s: State, request: Request, pc: Pc, ok: bool, debris: Debris)
    requires s.active.Some? && (HoldsLock(pc) || NeedsLock(pc)) && pc.ref in s.known
    requires pc.Reinstalling? ==> request.UpdateDns?
    ensures var t := LockedFrom(s, request, pc, ok, debris);
            && t.sessions == s.sessions && t.files == s.files && t.routes == s.routes
            && t.known == s.known[pc.ref := t.known[pc.ref]]
            && t.known[pc.ref].id == s.known[pc.ref].id && t.known[pc.ref].waiter == s.known[pc.ref].waiter
  {
    hide ApplyDns, RestoreDns;
    DnsCallsKeep(s, pc.ref, ok, debris);
  }

  lemma LockedRecords(s: State, request: Request, pc: Pc, ok: bool, debris: Debris)
    requires s.active.Some? && (HoldsLock(pc) || NeedsLock(pc)) && pc.ref in s.known
    requires pc.Reinstalling? ==> request.UpdateDns?
    ensures var t := LockedFrom(s, request, pc, ok, debris);
            if pc.Reinstalling? && ok then t.known[pc.ref].settings == request.settings && AsRecorded(t, pc.ref)
            else t.known[pc.ref].settings == s.known[pc.ref].settings
    ensures pc.Reinstalling? && ok ==> LockedFrom(s, request, pc, ok, debris).active.value.pc == Unlocking(pc.ref, true)
  {}

  lemma StopMoves(s: State, request: Request, pc: Pc, ok: bool, ids: seq<Id>)
    requires s.active.Some? && StopsSessions(pc) && (pc.Awaiting? ==> pc.left != []) && pc == s.active.value.pc
    ensures var t := StopFrom(s, request, pc, ok, ids);
            && t == s.(mu := t.mu, active := t.active)
            && t.active.Some? && t.active.value.request == s.active.value.request
            && (StopsSessions(t.active.value.pc) || t.active.value.pc.Registering? || t.active.value.pc.Returning?)
            && t.active.value.late == s.active.value.late + if pc.Awaiting? && !ok then {pc.left[0]} else {}
  {}

  lemma WaiterKeeps(s: State, r: Ref, ok: bool, debris: Debris)
    requires CanWait(s, r)
    ensures var t := WaitFrom(s, r, ok, debris);
            && t.active == s.active && t.known == s.known[r := t.known[r]]
            && t.known[r].id == s.known[r].id && t.known[r].settings == s.known[r].settings
  {
    hide ApplyDns, RestoreDns;
    DnsCallsKeep(s, r, ok, debris);
  }

  // ----- what a stop leaves -----

  /** Every registered session is still to be stopped, or its stop has run out of time. */
  predicate AllTried(sessions: map<Id, Ref>, left: seq<Id>, late: set<Id>) {
    forall id :: id in sessions ==> id in left || id in late
  }

  /** No session gets around a request that stops all of them, and a single stop fails only by running out of time. */
  predicate Tried(request: Request, pc: Pc, sessions: map<Id, Ref>, late: set<Id>) {
    && (pc.Entered? || pc.LookingUp? || pc.Listing? ==> late == {})
    && ((pc.Stopping? || pc.Awaiting?) && !request.Stop? ==> AllTried(sessions, pc.left, late))
    && (pc.Registering? || (pc.Returning? && request.StopAll?) ==> AllTried(sessions, [], late))
    && (request.Stop? && (pc.Stopping? || pc.Awaiting? || pc == Returning(true)) ==> late == {})
    && (request.Stop? && pc == Returning(false) ==> late == {request.id})
  }

  predicate LeftOver(s: State) {
    s.active.Some? ==> Tried(s.active.value.request, s.active.value.pc, s.sessions, s.active.value.late)
  }

  lemma FewerSessions(request: Request, pc: Pc, sessions: map<Id, Ref>, sessions': map<Id, Ref>, late: set<Id>)
    requires Tried(request, pc, sessions, late) && sessions'.Keys <= sessions.Keys
    ensures Tried(request, pc, sessions', late)
  {
  }

  /** A session a stop of whatever kind finds has been published. */
  lemma FoundIsBorn(s: State, id: Id)
    requires Inv(s) && s.active.Some? && !Building(s.active.value.pc) && id in s.sessions
    ensures Born(s.known, s.sessions[id])
  {
    hide SessionLocks, MuHeld, Bearings, Platform;
  }

  lemma StoppingKeepsLeftOver(s: State, ok: bool, debris: Debris, ids: seq<Id>, spare: Ref)
    requires Inv(s) && LeftOver(s) && CanAct(s, ok, debris, ids, spare) && s.active.value.pc.Stopping?
    ensures LeftOver(ActFrom(s, ok, debris, ids, spare))
  {
    hide BuildFrom, LockedFrom, SessionLocks, MuHeld, Platform, Registry;
    var left := s.active.value.pc.left;
    if left != [] && left[0] in s.sessions { FoundIsBorn(s, left[0]); }
    assert left != [] ==> left == [left[0]] + left[1..];
  }

  lemma AwaitingKeepsLeftOver(s: State, ok: bool, debris: Debris, ids: seq<Id>, spare: Ref)
    requires Inv(s) && LeftOver(s) && CanAct(s, ok, debris, ids, spare) && s.active.value.pc.Awaiting?
    ensures LeftOver(ActFrom(s, ok, debris, ids, spare))
  {
    hide BuildFrom, LockedFrom, SessionLocks, MuHeld, Platform;
    var left := s.active.value.pc.left;
    assert left == [left[0]] + left[1..];
    assert ok ==> left[0] !in s.sessions;
  }

  lemma ListingKeepsLeftOver(s: State, ok: bool, debris: Debris, ids: seq<Id>, spare: Ref)
    requires Inv(s) && LeftOver(s) && CanAct(s, ok, debris, ids, spare) && s.active.value.pc.Listing?
    ensures LeftOver(ActFrom(s, ok, debris, ids, spare))
  {
    hide BuildFrom, LockedFrom, Registry, SessionLocks, MuHeld, Platform;
  }

  lemma LookingUpKeepsLeftOver(s: State, ok: bool, debris: Debris, ids: seq<Id>, spare: Ref)
    requires Inv(s) && LeftOver(s) && CanAct(s, ok, debris, ids, spare) && s.active.value.pc.LookingUp?
    ensures LeftOver(ActFrom(s, ok, debris, ids, spare))
  {
    hide BuildFrom, LockedFrom, StopFrom, Registry, SessionLocks, MuHeld, Platform;
  }

  lemma ActKeepsLeftOver(s: State, ok: bool, debris: Debris, ids: seq<Id>, spare: Ref)
    requires Inv(s) && LeftOver(s) && CanAct(s, ok, debris, ids, spare)
    ensures LeftOver(ActFrom(s, ok, debris, ids, spare))
  {
    hide Registry, SessionLocks, MuHeld, Platform, BuildFrom, LockedFrom, StopFrom, AllTried;
    var request, pc := s.active.value.request, s.active.value.pc;
    if Building(pc) {
      BuildMoves(s, pc, ok, debris);
    } else if HoldsLock(pc) || NeedsLock(pc) {
      LockedMoves(s, request, pc, ok, debris);
    } else if pc.Listing? {
      ListingKeepsLeftOver(s, ok, debris, ids, spare);
    } else if pc.LookingUp? {
      LookingUpKeepsLeftOver(s, ok, debris, ids, spare);
    } else if pc.Stopping? {
      StoppingKeepsLeftOver(s, ok, debris, ids, spare);
    } else if pc.Awaiting? {
      AwaitingKeepsLeftOver(s, ok, debris, ids, spare);
    }
  }

  lemma StepKeepsLeftOver(s: State, step: Step)
    requires Inv(s) && LeftOver(s) && Enabled(s, step)
    ensures LeftOver(After(s, step))
  {
    hide Inv, ActFrom, Tried;
    match step
    case Act(ok, debris, ids, spare) => ActKeepsLeftOver(s, ok, debris, ids, spare);
    case Begin(request) => NothingTried(request, s.sessions);
    case _ =>
      if s.active.Some? {
        FewerSessions(s.active.value.request, s.active.value.pc, s.sessions, After(s, step).sessions,
                      s.active.value.late);
      }
  }

  lemma NothingTried(request: Request, sessions: map<Id, Ref>)
    ensures Tried(request, Entered, sessions, {})
  {}

  lemma {:induction false} RunsKeepLeftOver(states: seq<State>, steps: seq<Step>, i: nat)
    requires Run(states, steps) && i < |states|
    ensures Inv(states[i]) && LeftOver(states[i]) && Provided(states[i])
  {
    hide Inv, LeftOver, Provided, After, Enabled;
    RunsKeepInv(states, steps, i);
    if i == 0 {
      InitiallyLeftOver();
    } else {
      RunsKeepLeftOver(states, steps, i - 1);
      StepKeepsLeftOver(states[i - 1], steps[i - 1]);
      StepKeepsProvided(states[i - 1], steps[i - 1]);
    }
  }

  lemma InitiallyLeftOver()
    ensures LeftOver(INITIAL) && Provided(INITIAL)
  {}

  /** The request gives up on a session only after it has told its process to stop and waited in vain. */
  lemma LateMeans(s: State, step: Step, id: Id)
    requires Inv(s) && Enabled(s, step) && s.active.Some? && After(s, step).active.Some?
    requires id in After(s, step).active.value.late && id !in s.active.value.late
    ensures var pc := s.active.value.pc;
            step.Act? && !step.ok && pc.Awaiting? && pc.left[0] == id && s.known[pc.ref].id == id
  {
    if !step.Act? {
      OnlyActsMoveOn(s, step);
    } else {
      LateByAct(s, step.ok, step.debris, step.ids, step.spare, id);
    }
  }

  lemma LateByAct(s: State, ok: bool, debris: Debris, ids: seq<Id>, spare: Ref, id: Id)
    requires Inv(s) && CanAct(s, ok, debris, ids, spare)
    requires var t := ActFrom(s, ok, debris, ids, spare);
             t.active.Some? && id in t.active.value.late && id !in s.active.value.late
    ensures var pc := s.active.value.pc; !ok && pc.Awaiting? && pc.left[0] == id && s.known[pc.ref].id == id
  {
    hide Registry, SessionLocks, MuHeld, Platform, ActFrom, StopFrom, BuildFrom, LockedFrom;
    ActIs(s, ok, debris, ids, spare);
    var request, pc := s.active.value.request, s.active.value.pc;
    if Building(pc) {
      BuildMoves(s, pc, ok, debris);
    } else if HoldsLock(pc) || NeedsLock(pc) {
      LockedMoves(s, request, pc, ok, debris);
    } else if StopsSessions(pc) {
      StopMoves(s, request, pc, ok, ids);
    } else {
      ElsewhereMoves(s, ok, debris, ids, spare);
    }
  }

  // ----- what the answers mean -----

  /** The step that gives the active request its answer. */
  predicate Answers(s: State, step: Step, request: Request, ok: bool) {
    && step.Act? && Enabled(s, step) && s.active.Some? && s.active.value.request == request
    && !s.active.value.pc.Returning? && After(s, step).active.Some? && After(s, step).active.value.pc == Returning(ok)
  }

  /** Only its own actions move a request on. */
  lemma OnlyActsMoveOn(s: State, step: Step)
    requires Enabled(s, step) && s.active.Some? && !step.Act?
    ensures After(s, step).active == s.active
  {}

  /** Where an answer can come from. */
  lemma AnswersFrom(s: State, step: Step, request: Request, ok: bool)
    requires Inv(s) && Answers(s, step, request, ok)
    ensures var pc := s.active.value.pc;
            match request
            case Start(_, _) =>
              if ok then pc.LookingUp? || pc.StartingUp?
              else pc.Entered? || pc.Registering? || pc.Unregistering? || pc.StartingUp?
            case Stop(_) => pc.Stopping? || pc.Awaiting?
            case StopAll => ok && pc.Stopping?
            case UpdateDns(_, _) =>
              if ok then pc.Unlocking? && pc.ok else pc.Entered? || pc.Finding? || (pc.Unlocking? && !pc.ok)
            case ReadLogs(_) =>
              if ok then pc.Unlocking? && pc.ok else pc.Entered? || pc.Opening? || (pc.Unlocking? && !pc.ok)
  {
    hide Registry, SessionLocks, MuHeld, Platform, WaitFrom, BuildFrom, LockedFrom;
    var pc := s.active.value.pc;
    if Building(pc) { BuildMoves(s, pc, step.ok, step.debris); }
    if HoldsLock(pc) || NeedsLock(pc) { LockedMoves(s, request, pc, step.ok, step.debris); }
  }

  /** A start succeeds only where its session was registered already, or has been built with the settings asked for,
      published and not seen to end. */
  lemma StartSucceeds(s: State, step: Step, id: Id, settings: Settings)
    requires Inv(s) && Answers(s, step, Start(id, settings), true)
    ensures var pc := s.active.value.pc;
            || (pc.LookingUp? && id in s.sessions && After(s, step) == At(s.(mu := None), Returning(true)))
            || (pc.StartingUp? && Born(s.known, pc.ref) && s.known[pc.ref].id == id &&
                s.known[pc.ref].settings == settings && step.ok)
  {
    AnswersFrom(s, step, Start(id, settings), true);
    hide Registry, SessionLocks, MuHeld, Platform, WaitFrom, BuildFrom, LockedFrom, StopFrom;
  }

  const ANSWERED :=
    State(false, Some(Active(Start(0, 1), Returning(true))), None, map[0 := 0],
          map[0 := Session(0, 0, Some(ExitWaiter(0)), true, Deleting)],
          None, Some(0), {}, map[], {}, {}, {}, {})

  /** Registered already is not in service: a run into the success of a start whose session has ended. */
  lemma StartOverEnding() returns (states: seq<State>, steps: seq<Step>)
    ensures Run(states, steps) && states[|states| - 1] == ANSWERED
  {
    hide Run;
    states, steps := ReachEnding();
    states, steps := Extend(states, steps, Begin(Start(0, 1)));
    states, steps := Extend(states, steps, Act(true, Unchanged, [], 0));
    states, steps := Extend(states, steps, TakeMu(Requester));
    states, steps := Extend(states, steps, Act(true, Unchanged, [], 0));
  }

  /** It has lost its DNS, routes and files, had other settings, and is gone after two more steps of its waiter. */
  lemma NothingAnswersThere()
    ensures ANSWERED.active.value == Active(Start(0, 1), Returning(true))
    ensures ANSWERED.dns.None? && ANSWERED.routes == {} && ANSWERED.files == map[] && ANSWERED.known[0].settings != 1
    ensures Enabled(ANSWERED, TakeMu(ExitWaiter(0)))
    ensures var s := After(ANSWERED, TakeMu(ExitWaiter(0)));
            Enabled(s, Wait(0, true, Unchanged)) && After(s, Wait(0, true, Unchanged)).sessions == map[]
  {
    assert map[0 := 0] - {0} == map[];
  }

  /** It fails only if it was refused, if a leftover session could not be stopped in time, if the session could not be
      built, and then nothing is registered, or if its process has ended. */
  lemma StartFails(s: State, step: Step, id: Id, settings: Settings)
    requires Inv(s) && LeftOver(s) && Answers(s, step, Start(id, settings), false)
    ensures var pc := s.active.value.pc;
            || (pc.Entered? && (s.closing || !step.ok))
            || (pc.Registering? && s.sessions != map[] && forall i :: i in s.sessions ==> i in s.active.value.late)
            || (pc.Unregistering? && After(s, step).sessions == map[])
            || (pc.StartingUp? && !s.known[pc.ref].waiter.Running?)
  {
    AnswersFrom(s, step, Start(id, settings), false);
    hide SessionLocks, MuHeld, Platform, WaitFrom, LockedFrom, StopFrom;
    if s.active.value.pc.Unregistering? {
      BuiltIsAlone(s, s.active.value.pc.ref);
      forall i | i in s.sessions ensures i == id { assert Registered(s.sessions, s.known, s.sessions[i]); }
      assert After(s, step).sessions.Keys == {};
    }
  }

  /** A start that was not refused comes to build its session only once every other one is gone. */
  lemma StartReplaces(s: State, step: Step)
    requires Inv(s) && step.Act? && Enabled(s, step) && s.active.Some? && s.active.value.request.Start?
    requires After(s, step).active.Some? && After(s, step).active.value.pc.Preparing?
    ensures s.active.value.pc.Registering? && s.sessions == map[]
    ensures var r := After(s, step).active.value.pc.ref; var request := s.active.value.request;
            && r !in s.known && After(s, step).sessions == map[request.id := r]
            && After(s, step).known == s.known[r := Session(request.id, request.settings, None, false, Unborn)]
  {
    hide Registry, SessionLocks, MuHeld, Platform, ActFrom, WaitFrom, BuildFrom, LockedFrom, StopFrom;
    ActIs(s, step.ok, step.debris, step.ids, step.spare);
    var request, pc := s.active.value.request, s.active.value.pc;
    if Building(pc) {
      BuildMoves(s, pc, step.ok, step.debris);
    } else if StopsSessions(pc) {
      StopMoves(s, request, pc, step.ok, step.ids);
    } else {
      ElsewhereKeeps(s, step.ok, step.debris, step.ids, step.spare);
      ElsewhereMoves(s, step.ok, step.debris, step.ids, step.spare);
    }
    assert s.sessions.Keys == {} ==> s.sessions == map[];
  }

  /** A single stop succeeds only once the session is gone, and fails only by running out of time. */
  lemma StopAnswers(s: State, step: Step, id: Id, ok: bool)
    requires Inv(s) && LeftOver(s) && Answers(s, step, Stop(id), ok)
    ensures if ok then id !in After(s, step).sessions
            else s.active.value.pc.Awaiting? && !step.ok && After(s, step).active.value.late == {id}
  {
    StepKeepsInv(s, step);
    StepKeepsLeftOver(s, step);
    AnswersFrom(s, step, Stop(id), ok);
    hide Registry, SessionLocks, MuHeld, Platform, WaitFrom, BuildFrom, LockedFrom;
    if !ok { LateMeans(s, step, id); }
  }

  /** Stopping all always reports success, and every session that is still registered has run out of time. */
  lemma StopAllAnswers(s: State, step: Step, ok: bool)
    requires Inv(s) && LeftOver(s) && Answers(s, step, StopAll, ok)
    ensures ok && forall id :: id in After(s, step).sessions ==> id in After(s, step).active.value.late
  {
    StepKeepsLeftOver(s, step);
    AnswersFrom(s, step, StopAll, ok);
    hide Inv, WaitFrom, BuildFrom, LockedFrom;
  }

  /** An update of the DNS succeeds only with its settings recorded and installed. */
  lemma UpdateSucceeds(s: State, step: Step, id: Id, settings: Settings)
    requires Inv(s) && UpdateDone(s) && Answers(s, step, UpdateDns(id, settings), true)
    ensures id in s.sessions && s.known[s.sessions[id]].settings == settings && AsRecorded(s, s.sessions[id])
  {
    AnswersFrom(s, step, UpdateDns(id, settings), true);
    hide SessionLocks, MuHeld, Platform, WaitFrom, BuildFrom, LockedFrom, StopFrom;
  }

  /** Recorded settings change in no other way, and who a session is does not change at all. */
  lemma SettingsChangeOnlyByUpdates(s: State, step: Step, r: Ref)
    requires Inv(s) && Enabled(s, step) && r in s.known
    ensures r in After(s, step).known && After(s, step).known[r].id == s.known[r].id
    ensures After(s, step).known[r].settings != s.known[r].settings ==>
              && s.active.Some? && s.active.value.pc.Reinstalling? && s.active.value.pc.ref == r
              && s.active.value.request == UpdateDns(s.known[r].id, After(s, step).known[r].settings)
              && step.Act? && step.ok && AsRecorded(After(s, step), r)
              && After(s, step).active.value.pc == Unlocking(r, true)
  {
    hide Registry, SessionLocks, MuHeld, Platform, AsRecorded, ActFrom, WaitFrom, BuildFrom, LockedFrom, StopFrom;
    if step.Act? {
      ActIs(s, step.ok, step.debris, step.ids, step.spare);
      var request, pc := s.active.value.request, s.active.value.pc;
      if Building(pc) {
        BuildKeeps(s, pc, step.ok, step.debris);
      } else if HoldsLock(pc) || NeedsLock(pc) {
        LockedKeeps(s, request, pc, step.ok, step.debris);
        LockedRecords(s, request, pc, step.ok, step.debris);
      } else if StopsSessions(pc) {
        StopMoves(s, request, pc, step.ok, step.ids);
      } else {
        ElsewhereKeeps(s, step.ok, step.debris, step.ids, step.spare);
      }
    } else if step.Wait? {
      WaiterKeeps(s, step.ref, step.ok, step.debris);
    }
  }

  /** Logs are handed out only of the session asked for, and only while its lock is held. */
  lemma LogsSucceed(s: State, step: Step, id: Id)
    requires Inv(s) && Answers(s, step, ReadLogs(id), true)
    ensures s.active.value.pc.Unlocking? && s.known[s.active.value.pc.ref].id == id
    ensures s.known[s.active.value.pc.ref].lock == Some(Requester)
  {
    AnswersFrom(s, step, ReadLogs(id), true);
    hide Registry, MuHeld, Platform, WaitFrom, BuildFrom, LockedFrom, StopFrom;
  }

  /** What is refused when it is taken up is answered so, with nothing done: a start of a closing helper or with an
      invalid specification, invalid settings, an invalid offset. A stop is never refused. */
  lemma RefusedAtOnce(s: State, ok: bool, debris: Debris, ids: seq<Id>, spare: Ref)
    requires CanAct(s, ok, debris, ids, spare) && s.active.value.pc.Entered?
    ensures var request, t := s.active.value.request, ActFrom(s, ok, debris, ids, spare);
            if request.Stop? || request.StopAll? then !t.active.value.pc.Returning?
            else if !ok || (request.Start? && s.closing) then t == At(s, Returning(false))
            else !t.active.value.pc.Returning?
  {
    hide StopFrom, BuildFrom, LockedFrom;
  }

  /** An update or a log request that was not refused fails only without a session, or once it has let go of it. */
  lemma LookupFails(s: State, step: Step, request: Request)
    requires Inv(s) && Answers(s, step, request, false) && (request.UpdateDns? || request.ReadLogs?)
    ensures var pc := s.active.value.pc;
            || (pc.Entered? && !step.ok)
            || ((pc.Finding? || pc.Opening?) && request.id !in s.sessions)
            || (pc.Unlocking? && !pc.ok)
  {
    AnswersFrom(s, step, request, false);
    hide Registry, SessionLocks, MuHeld, Platform, WaitFrom, BuildFrom, LockedFrom, StopFrom;
  }

  /** What a waiter cannot take back stays, and is on record. */
  lemma FailuresAreOnRecord(s: State, r: Ref, ok: bool, debris: Debris)
    requires CanWait(s, r)
    ensures var w, t := s.known[r].waiter, WaitFrom(s, r, ok, debris);
            && (w.CleaningRoutes? ==>
                  if ok then t.routes == s.routes - {r} else t.routes == s.routes && r in t.routesStuck)
            && (w.RemovingFiles? ==>
                  if ok then t.files == s.files - {s.known[r].id} else t.files == s.files && r in t.filesStuck)
            && (w.RestoringDns? ==> if ok then t.dns.None? else r in t.dnsStuck)
  {}

  // ----- who may look at the sessions, and who may change them -----

  predicate By(step: Step, who: Who) {
    match step
    case Act(_, _, _, _) => who == Requester
    case Wait(r, _, _) => who == ExitWaiter(r)
    case _ => false
  }

  /** The entries change only at the hands of whoever holds mu. */
  lemma EntriesAreGuarded(s: State, step: Step)
    requires Enabled(s, step) && After(s, step).sessions != s.sessions
    ensures s.mu.Some? && By(step, s.mu.value)
  {
    hide ActFrom, BuildFrom, LockedFrom, StopFrom;
    if step.Act? {
      ActIs(s, step.ok, step.debris, step.ids, step.spare);
      var request, pc := s.active.value.request, s.active.value.pc;
      if Building(pc) {
        BuildKeeps(s, pc, step.ok, step.debris);
      } else if HoldsLock(pc) || NeedsLock(pc) {
        LockedKeeps(s, request, pc, step.ok, step.debris);
      } else if StopsSessions(pc) {
        StopMoves(s, request, pc, step.ok, step.ids);
      } else {
        ElsewhereKeeps(s, step.ok, step.debris, step.ids, step.spare);
      }
    }
  }

  lemma BuildingPeeksNot(s: State, sessions: map<Id, Ref>, pc: Pc, ok: bool, debris: Debris)
    requires s.active.Some? && Building(pc) && pc.ref in s.known && !NeedsMu(pc)
    ensures BuildFrom(s.(sessions := sessions), pc, ok, debris) == BuildFrom(s, pc, ok, debris).(sessions := sessions)
  {}

  lemma LockedPeeksNot(s: State, sessions: map<Id, Ref>, request: Request, pc: Pc, ok: bool, debris: Debris)
    requires s.active.Some? && (HoldsLock(pc) || NeedsLock(pc)) && pc.ref in s.known && !NeedsMu(pc)
    requires pc.Reinstalling? ==> request.UpdateDns?
    ensures LockedFrom(s.(sessions := sessions), request, pc, ok, debris) ==
            LockedFrom(s, request, pc, ok, debris).(sessions := sessions)
  {}

  lemma StoppingPeeksNot(s: State, sessions: map<Id, Ref>, request: Request, pc: Pc, ok: bool, ids: seq<Id>)
    requires s.active.Some? && StopsSessions(pc) && (pc.Awaiting? ==> pc.left != []) && !NeedsMu(pc)
    ensures StopFrom(s.(sessions := sessions), request, pc, ok, ids) ==
            StopFrom(s, request, pc, ok, ids).(sessions := sessions)
  {}

  lemma ElsewherePeeksNot(s: State, sessions: map<Id, Ref>, ok: bool, debris: Debris, ids: seq<Id>, spare: Ref)
    requires CanAct(s, ok, debris, ids, spare) && CanAct(s.(sessions := sessions), ok, debris, ids, spare)
    requires Elsewhere(s.active.value.pc) && !NeedsMu(s.active.value.pc)
    ensures ActFrom(s.(sessions := sessions), ok, debris, ids, spare) ==
            ActFrom(s, ok, debris, ids, spare).(sessions := sessions)
  {
    hide StopFrom, BuildFrom, LockedFrom;
  }

  /** And the request does not look at them without holding it. */
  lemma NobodyPeeks(s: State, sessions: map<Id, Ref>, ok: bool, debris: Debris, ids: seq<Id>, spare: Ref)
    requires CanAct(s, ok, debris, ids, spare) && CanAct(s.(sessions := sessions), ok, debris, ids, spare)
    requires s.mu != Some(Requester)
    ensures ActFrom(s.(sessions := sessions), ok, debris, ids, spare) ==
            ActFrom(s, ok, debris, ids, spare).(sessions := sessions)
  {
    hide ActFrom, BuildFrom, LockedFrom, StopFrom;
    ActIs(s, ok, debris, ids, spare);
    ActIs(s.(sessions := sessions), ok, debris, ids, spare);
    var request, pc := s.active.value.request, s.active.value.pc;
    if Building(pc) {
      BuildingPeeksNot(s, sessions, pc, ok, debris);
    } else if HoldsLock(pc) || NeedsLock(pc) {
      LockedPeeksNot(s, sessions, request, pc, ok, debris);
    } else if StopsSessions(pc) {
      StoppingPeeksNot(s, sessions, request, pc, ok, ids);
    } else {
      ElsewherePeeksNot(s, sessions, ok, debris, ids, spare);
    }
  }

  // ----- what a session in service has -----

  /** The work directory is there, from its creation until its removal. */
  predicate HasFiles(s: State, r: Ref)
    requires r in s.known
  {
    match s.known[r].waiter
    case Unborn =>
      && s.active.Some? && Building(s.active.value.pc) && s.active.value.pc.ref == r
      && !s.active.value.pc.Preparing? && !s.active.value.pc.Unregistering?
    case Deleting => false
    case Closing => false
    case Finished => false
    case _ => true
  }

  /** So are the routes, from the start of the process until they are cleaned up. */
  predicate HasRoutes(s: State, r: Ref)
    requires r in s.known
  {
    match s.known[r].waiter
    case Unborn => s.active.Some? && s.active.value.pc == Publishing(r)
    case RemovingFiles => false
    case Deleting => false
    case Closing => false
    case Finished => false
    case _ => true
  }

  ghost predicate Provided(s: State) {
    forall r :: r in s.known && Registered(s.sessions, s.known, r) ==>
      && (HasFiles(s, r) ==> s.known[r].id in s.files && s.files[s.known[r].id] == r)
      && (HasRoutes(s, r) ==> r in s.routes)
  }

  lemma BuildingKeepsProvided(s: State, ok: bool, debris: Debris, ids: seq<Id>, spare: Ref)
    requires Inv(s) && Provided(s) && CanAct(s, ok, debris, ids, spare) && Building(s.active.value.pc)
    ensures Provided(ActFrom(s, ok, debris, ids, spare))
  {
    hide ActFrom, StopFrom, LockedFrom, Registry, SessionLocks, MuHeld, Platform, ApplyDns, RestoreDns;
    var pc := s.active.value.pc;
    ActIs(s, ok, debris, ids, spare);
    BuiltIsAlone(s, pc.ref);
    BuildKeeps(s, pc, ok, debris);
    DnsCallsKeep(s, pc.ref, ok, debris);
  }

  lemma LockedKeepsProvided(s: State, ok: bool, debris: Debris, ids: seq<Id>, spare: Ref)
    requires Provided(s) && CanAct(s, ok, debris, ids, spare)
    requires HoldsLock(s.active.value.pc) || NeedsLock(s.active.value.pc)
    ensures Provided(ActFrom(s, ok, debris, ids, spare))
  {
    hide ActFrom, BuildFrom, LockedFrom, StopFrom;
    ActIs(s, ok, debris, ids, spare);
    LockedKeeps(s, s.active.value.request, s.active.value.pc, ok, debris);
    LockedMoves(s, s.active.value.request, s.active.value.pc, ok, debris);
  }

  lemma StopKeepsProvided(s: State, ok: bool, debris: Debris, ids: seq<Id>, spare: Ref)
    requires Inv(s) && Provided(s) && CanAct(s, ok, debris, ids, spare)
    requires StopsSessions(s.active.value.pc)
    ensures Provided(ActFrom(s, ok, debris, ids, spare))
  {
    hide ActFrom, BuildFrom, LockedFrom, StopFrom, SessionLocks, MuHeld, Platform, RequestBearings, Registry;
    ActIs(s, ok, debris, ids, spare);
    StopMoves(s, s.active.value.request, s.active.value.pc, ok, ids);
  }

  lemma ElsewhereKeepsProvided(s: State, ok: bool, debris: Debris, ids: seq<Id>, spare: Ref)
    requires Provided(s) && CanAct(s, ok, debris, ids, spare) && Elsewhere(s.active.value.pc)
    ensures Provided(ActFrom(s, ok, debris, ids, spare))
  {
    hide ActFrom, BuildFrom, LockedFrom, StopFrom;
    ElsewhereKeeps(s, ok, debris, ids, spare);
    ElsewhereMoves(s, ok, debris, ids, spare);
  }

  lemma ActKeepsProvided(s: State, ok: bool, debris: Debris, ids: seq<Id>, spare: Ref)
    requires Inv(s) && Provided(s) && CanAct(s, ok, debris, ids, spare)
    ensures Provided(ActFrom(s, ok, debris, ids, spare))
  {
    hide Inv, Provided, ActFrom, CanActAt;
    var pc := s.active.value.pc;
    if Building(pc) {
      BuildingKeepsProvided(s, ok, debris, ids, spare);
    } else if HoldsLock(pc) || NeedsLock(pc) {
      LockedKeepsProvided(s, ok, debris, ids, spare);
    } else if StopsSessions(pc) {
      StopKeepsProvided(s, ok, debris, ids, spare);
    } else {
      ElsewhereKeepsProvided(s, ok, debris, ids, spare);
    }
  }

  /** A waiter at work is that of the one registered session. */
  lemma WaiterIsAlone(s: State, r: Ref)
    requires Inv(s) && r in s.known && Served(s.known[r].waiter)
    ensures forall q :: q in s.known && Registered(s.sessions, s.known, q) ==> q == r
  {
    hide SessionLocks, MuHeld, Platform, Bearings;
  }

  lemma WaitKeepsProvided(s: State, r: Ref, ok: bool, debris: Debris)
    requires Inv(s) && Provided(s) && CanWait(s, r)
    ensures Provided(WaitFrom(s, r, ok, debris))
  {
    hide WaitFrom, SessionLocks, MuHeld, Platform, RequestBearings;
    WaiterKeeps(s, r, ok, debris);
    if Served(s.known[r].waiter) { WaiterIsAlone(s, r); }
    NextWaiter(s, r, ok, debris);
    WaiterTakesBack(s, r, ok, debris);
  }

  /** What a waiter has taken back it no longer counts on. */
  lemma NextWaiter(s: State, r: Ref, ok: bool, debris: Debris)
    requires CanWait(s, r)
    ensures var w, w' := s.known[r].waiter, WaitFrom(s, r, ok, debris).known[r].waiter;
            match w
            case Locking => w'.Marking?
            case Marking => w'.RestoringDns?
            case RestoringDns => w'.CleaningRoutes?
            case CleaningRoutes => w'.RemovingFiles?
            case RemovingFiles => w'.Deleting?
            case Deleting => w'.Closing?
            case _ => w'.Finished?
  {}

  lemma WaiterTakesBack(s: State, r: Ref, ok: bool, debris: Debris)
    requires CanWait(s, r)
    ensures var w, t := s.known[r].waiter, WaitFrom(s, r, ok, debris);
            && (w.RemovingFiles? || t.files == s.files) && (w.CleaningRoutes? || t.routes == s.routes)
            && (w.Deleting? || t.sessions == s.sessions)
            && t.sessions.Keys <= s.sessions.Keys && forall id :: id in t.sessions ==> t.sessions[id] == s.sessions[id]
  {}

  lemma StepKeepsProvided(s: State, step: Step)
    requires Inv(s) && Provided(s) && Enabled(s, step)
    ensures Provided(After(s, step))
  {
    hide Inv, ActFrom, WaitFrom;
    match step
    case Act(ok, debris, ids, spare) => ActKeepsProvided(s, ok, debris, ids, spare);
    case Wait(r, ok, debris) => WaitKeepsProvided(s, r, ok, debris);
    case _ =>
  }
}
