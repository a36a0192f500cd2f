/** When the helper's threads can get stuck: exactly when a log reader holds mu and waits for the lock of a session
    whose exit waiter has that lock and waits for mu. */
module SessionDeadlock {
  import opened Sessions
  import opened SessionRuns

  /** A step of some thread at work: no new request, no new observer, no process ending and no time running out. */
  predicate ThreadStep(s: State, step: Step) {
    match step
    case TakeMu(who) => !who.Observer?
    case Act(ok, _, _, _) => ok || (s.active.Some? && !s.active.value.pc.Awaiting?)
    case Wait(_, _, _) => true
    case Observed => true
    case _ => false
  }

  ghost predicate Moves(s: State) { exists step :: Enabled(s, step) && ThreadStep(s, step) }

  predicate Working(w: Waiter) { !w.Unborn? && !w.Running? && !w.Finished? }

  ghost predicate Busy(s: State) {
    s.active.Some? || s.mu.Some? || exists r :: r in s.known && Working(s.known[r].waiter)
  }

  /** The active request has told a core process to stop and the process has not ended yet. */
  predicate WaitsForProcess(s: State) {
    s.active.Some? && s.active.value.pc.Awaiting? && s.active.value.pc.ref in s.known &&
    s.known[s.active.value.pc.ref].waiter.Running?
  }

  /** The reader has mu and needs the session's lock; the waiter has that lock and needs mu. */
  predicate Deadlocked(s: State) {
    s.active.Some? && s.active.value.pc.Grabbing? && s.active.value.pc.ref in s.known &&
    s.known[s.active.value.pc.ref].waiter.Deleting?
  }

  lemma {:induction false} Unused(known: set<Ref>) returns (spare: Ref)
    ensures spare !in known && forall r :: r in known ==> r < spare
    decreases known
  {
    spare := 0;
    if known != {} {
      var r :| r in known;
      spare := Unused(known - {r});
      assert forall q :: q in known ==> q == r || q in known - {r};
      if spare <= r { spare := r + 1; }
    }
  }

  lemma {:induction false} Listed(s: set<Id>) returns (ids: seq<Id>)
    ensures forall id :: id in ids <==> id in s
    decreases s
  {
    ids := [];
    if s != {} {
      var id :| id in s;
      ids := Listed(s - {id});
      ids := ids + [id];
    }
  }

  /** A waiter at work can go on, unless it needs mu and mu is taken, or the reader is about to take its lock. */
  lemma WaiterMoves(s: State, r: Ref)
    requires Inv(s) && r in s.known && Working(s.known[r].waiter)
    requires s.known[r].waiter.Locking? ==> Locked(s) != Some(r)
    requires s.known[r].waiter.Deleting? ==> s.mu.None? || s.mu == Some(ExitWaiter(r))
    ensures Moves(s)
  {
    if s.known[r].waiter.Deleting? && s.mu.None? {
      assert Enabled(s, TakeMu(ExitWaiter(r))) && ThreadStep(s, TakeMu(ExitWaiter(r)));
    } else {
      assert Enabled(s, Wait(r, true, Unchanged)) && ThreadStep(s, Wait(r, true, Unchanged));
    }
  }

  /** Neither can the active request be stuck for another reason. */
  lemma RequestMoves(s: State)
    requires Inv(s) && s.active.Some? && !Deadlocked(s) && !WaitsForProcess(s)
    requires s.mu.None? || s.mu == Some(Requester)
    ensures Moves(s)
  {
    var pc := s.active.value.pc;
    if NeedsMu(pc) && s.mu.None? {
      assert Enabled(s, TakeMu(Requester)) && ThreadStep(s, TakeMu(Requester));
    } else if (NeedsLock(pc) && WaiterHolds(s.known[pc.ref].waiter)) ||
      (pc.Awaiting? && Working(s.known[pc.ref].waiter)) {
      WaiterMoves(s, pc.ref);
    } else {
      var ids := Listed(s.sessions.Keys);
      var spare := Unused(s.known.Keys);
      assert CanActAt(s, s.active.value.request, pc, true, Unchanged, ids, spare);
      assert Enabled(s, Act(true, Unchanged, ids, spare)) && ThreadStep(s, Act(true, Unchanged, ids, spare));
    }
  }

  /** Whatever is at work goes on, as long as that one pair is not deadlocked. */
  lemma NoOtherDeadlock(s: State)
    requires Inv(s) && Busy(s) && !Deadlocked(s) && !WaitsForProcess(s)
    ensures Moves(s)
  {
    if s.mu == Some(Observer) {
      assert Enabled(s, Observed) && ThreadStep(s, Observed);
    } else if s.mu.Some? && s.mu.value.ExitWaiter? {
      WaiterMoves(s, s.mu.value.ref);
    } else if s.active.Some? {
      RequestMoves(s);
    } else {
      var r :| r in s.known && Working(s.known[r].waiter);
      WaiterMoves(s, r);
    }
  }

  /** It takes a log reader: with any other request, or none, nothing is ever deadlocked. */
  lemma OnlyReadersDeadlock(s: State)
    requires Inv(s) && Deadlocked(s)
    ensures s.active.value.request.ReadLogs?
  {}

  /** The deadlock is for good: no step ends it, so the lifecycle lock and mu are never let go again. */
  lemma DeadlockIsForever(s: State, step: Step)
    requires Inv(s) && Deadlocked(s) && Enabled(s, step)
    ensures Deadlocked(After(s, step)) && After(s, step).active == s.active &&
            After(s, step).mu == s.mu == Some(Requester)
  {
    hide Registry, Platform, RequestBearings, ActFrom, WaitFrom;
    assert s.known[s.active.value.pc.ref].lock == Some(ExitWaiter(s.active.value.pc.ref));
    match step
    case Wait(r, ok, debris) => OthersWait(s, r, ok, debris);
    case _ =>
  }

  /** The waiters that can go on are those of other sessions. */
  lemma OthersWait(s: State, r: Ref, ok: bool, debris: Debris)
    requires Deadlocked(s) && s.mu == Some(Requester) && CanWait(s, r)
    ensures var t := WaitFrom(s, r, ok, debris); Deadlocked(t) && t.active == s.active && t.mu == s.mu
  {
  }

  // ----- a run into it -----

  /** The last state of a run that is extended step by step. */
  lemma Extend(states: seq<State>, steps: seq<Step>, step: Step) returns (longer: seq<State>, more: seq<Step>)
    requires Run(states, steps) && Enabled(states[|states| - 1], step)
    ensures Run(longer, more) && longer[|longer| - 1] == After(states[|states| - 1], step)
  {
    hide Enabled, After;
    longer, more := states + [After(states[|states| - 1], step)], steps + [step];
  }

  lemma Begun()
    ensures Run([INITIAL], [])
  {
  }

  const REGISTERED: State :=
    State(false, Some(Active(Start(0, 0), Preparing(0))), None, map[0 := 0],
          map[0 := Session(0, 0, None, false, Unborn)],
          None, None, {}, map[], {}, {}, {}, {})

  /** A session is registered. */
  lemma ReachRegistered() returns (states: seq<State>, steps: seq<Step>)
    ensures Run(states, steps) && states[|states| - 1] == REGISTERED
  {
    hide Run;
    states, steps := [INITIAL], [];
    assert Run(states, steps) by { Begun(); }
    states, steps := Extend(states, steps, Begin(Start(0, 0)));
    states, steps := Extend(states, steps, Act(true, Unchanged, [], 0));
    states, steps := Extend(states, steps, TakeMu(Requester));
    states, steps := Extend(states, steps, Act(true, Unchanged, [], 0));
    states, steps := Extend(states, steps, TakeMu(Requester));
    states, steps := Extend(states, steps, Act(true, Unchanged, [], 0));
  }

  const EQUIPPED: State := REGISTERED.(active := Some(Active(Start(0, 0), InstallingDns(0))), files := map[0 := 0])

  /** Its directory, configuration and log are there. */
  lemma ReachEquipped() returns (states: seq<State>, steps: seq<Step>)
    ensures Run(states, steps) && states[|states| - 1] == EQUIPPED
  {
    hide Run;
    states, steps := ReachRegistered();
    states, steps := Extend(states, steps, Act(true, Unchanged, [], 0));
    states, steps := Extend(states, steps, Act(true, Unchanged, [], 0));
  }

  const SPAWNED :=
    State(false, Some(Active(Start(0, 0), Publishing(0))), None, map[0 := 0],
          map[0 := Session(0, 0, None, false, Unborn)],
          Some(0), Some(0), {0}, map[0 := 0], {}, {}, {}, {})

  /** Its process runs. */
  lemma ReachSpawned() returns (states: seq<State>, steps: seq<Step>)
    ensures Run(states, steps) && states[|states| - 1] == SPAWNED
  {
    hide Run;
    states, steps := ReachEquipped();
    states, steps := Extend(states, steps, Act(true, Unchanged, [], 0));
    states, steps := Extend(states, steps, Act(true, Unchanged, [], 0));
  }

  const STARTED: State :=
    State(false, None, None, map[0 := 0], map[0 := Session(0, 0, None, false, Running)],
          Some(0), Some(0), {0}, map[0 := 0], {}, {}, {}, {})

  const PUBLISHED: State := STARTED.(active := Some(Active(Start(0, 0), StartingUp(0))))

  /** Its waiter is watching it. */
  lemma ReachPublished() returns (states: seq<State>, steps: seq<Step>)
    ensures Run(states, steps) && states[|states| - 1] == PUBLISHED
  {
    hide Run;
    states, steps := ReachSpawned();
    states, steps := Extend(states, steps, TakeMu(Requester));
    states, steps := Extend(states, steps, Act(true, Unchanged, [], 0));
  }

  /** The request is over. */
  lemma ReachStarted() returns (states: seq<State>, steps: seq<Step>)
    ensures Run(states, steps) && states[|states| - 1] == STARTED
  {
    hide Run;
    states, steps := ReachPublished();
    states, steps := Extend(states, steps, Act(true, Unchanged, [], 0));
    states, steps := Extend(states, steps, Act(true, Unchanged, [], 0));
  }

  const ENDING :=
    State(false, None, None, map[0 := 0], map[0 := Session(0, 0, Some(ExitWaiter(0)), true, Deleting)],
          None, Some(0), {}, map[], {}, {}, {}, {})

  /** Its process ended and its waiter got as far as needing mu. */
  lemma ReachEnding() returns (states: seq<State>, steps: seq<Step>)
    ensures Run(states, steps) && states[|states| - 1] == ENDING
  {
    hide Run;
    states, steps := ReachStarted();
    states, steps := Extend(states, steps, Exit(0));
    states, steps := Extend(states, steps, Wait(0, true, Unchanged));
    states, steps := Extend(states, steps, Wait(0, true, Unchanged));
    states, steps := Extend(states, steps, Wait(0, true, Unchanged));
    states, steps := Extend(states, steps, Wait(0, true, Unchanged));
    states, steps := Extend(states, steps, Wait(0, true, Unchanged));
  }

  /** A log reader takes mu first. */
  lemma DeadlockIsReachable() returns (states: seq<State>, steps: seq<Step>)
    ensures Run(states, steps) && Deadlocked(states[|states| - 1])
  {
    hide Run;
    states, steps := ReachEnding();
    states, steps := Extend(states, steps, Begin(ReadLogs(0)));
    states, steps := Extend(states, steps, Act(true, Unchanged, [], 0));
    states, steps := Extend(states, steps, TakeMu(Requester));
    states, steps := Extend(states, steps, Act(true, Unchanged, [], 0));
  }
}
