/** What holds in every state any interleaving of the helper's threads can reach. */
module SessionRuns {
  import opened Sessions

  /** The session the active request is building. */
  function Built(s: State): Option<Ref> {
    if s.active.Some? && Building(s.active.value.pc) then Some(s.active.value.pc.ref) else None
  }

  /** The session the active request has locked. */
  function Locked(s: State): Option<Ref> {
    if s.active.Some? && HoldsLock(s.active.value.pc) then Some(s.active.value.pc.ref) else None
  }

  predicate RequesterNeedsMu(s: State) { s.active.Some? && NeedsMu(s.active.value.pc) }

  predicate RequesterKeepsMu(s: State) { s.active.Some? && s.active.value.pc.Grabbing? }

  /** What the session that is being built may have set up so far. */
  predicate BuiltDns(s: State) {
    s.active.Some? &&
      (s.active.value.pc.InstallingDns? || s.active.value.pc.Spawning? || s.active.value.pc.Publishing? ||
                       s.active.value.pc.TakingDnsBack?)
  }

  predicate BuiltFiles(s: State) {
    s.active.Some? ==> !s.active.value.pc.Preparing? && !s.active.value.pc.Unregistering?
  }

  predicate BuiltRoutes(s: State) { s.active.Some? && s.active.value.pc.Publishing? }

  /** A session's process or its waiter is at work on it. */
  predicate Served(w: Waiter) { !w.Unborn? && !w.Closing? && !w.Finished? }

  /** The waiter has marked the session as stopping. */
  predicate Stopped(w: Waiter) { w.Finished? || (WaiterHolds(w) && !w.Marking?) }

  /** One session at most, registered exactly as long as it is being built or served. */
  ghost predicate Registry(sessions: map<Id, Ref>, known: map<Ref, Session>, built: Option<Ref>) {
    && (forall id :: id in sessions ==> sessions[id] in known && known[sessions[id]].id == id)
    && (forall i, j :: i in sessions && j in sessions ==> i == j)
    && (forall r :: r in known ==>
          (Registered(sessions, known, r) <==>
           Served(known[r].waiter) || (known[r].waiter.Unborn? && built == Some(r))))
    && (forall r :: r in known ==> (known[r].stopping <==> Stopped(known[r].waiter)))
  }

  /** A session's lock is held by whoever is at a place that says so. */
  ghost predicate SessionLocks(known: map<Ref, Session>, locked: Option<Ref>) {
    && (forall r :: r in known ==>
          known[r].lock == if WaiterHolds(known[r].waiter) then Some(ExitWaiter(r))
                           else if locked == Some(r) then Some(Requester) else None)
    && (locked.Some? ==> locked.value in known && !WaiterHolds(known[locked.value].waiter))
  }

  /** So is mu. */
  ghost predicate MuHeld(mu: Option<Who>, known: map<Ref, Session>, needed: bool, kept: bool) {
    && (mu == Some(Requester) ==> needed) && (kept ==> mu == Some(Requester))
    && (mu.Some? && mu.value.ExitWaiter? ==> mu.value.ref in known && known[mu.value.ref].waiter.Deleting?)
  }

  predicate Born(known: map<Ref, Session>, r: Ref) { r in known && !known[r].waiter.Unborn? }

  /** What the active request knows of the session it works on. */
  ghost predicate Bearings(request: Request, pc: Pc, sessions: map<Id, Ref>, known: map<Ref, Session>) {
    && (Building(pc) ==>
        request.Start? && pc.ref in known && known[pc.ref].waiter.Unborn? && known[pc.ref].id == request.id &&
        known[pc.ref].settings == request.settings)
    && (pc.Stopping? && request.Stop? ==> pc.left == [request.id])
    && (pc.Awaiting? ==> Born(known, pc.ref) && pc.left != [] && known[pc.ref].id == pc.left[0] &&
                         (request.Stop? ==> pc.left == [request.id]) &&
                         (pc.left[0] in sessions ==> sessions[pc.left[0]] == pc.ref))
    && (pc.Clearing? || pc.Reinstalling? || pc.PuttingBack? ==> request.UpdateDns?)
    && (pc.LookingUp? || pc.Registering? || pc.StartingUp? ==> request.Start?)
    && (StopsSessions(pc) ==> request.Start? || request.Stop? || request.StopAll?) && (pc.Listing? ==> !request.Stop?)
    && (pc.Finding? ==> request.UpdateDns?)
    && (pc.Opening? || pc.Grabbing? || pc.Reading? ==> request.ReadLogs?)
    && (pc.LockingSession? || pc.Checking? ==> request.UpdateDns?)
    && (NeedsLock(pc) || HoldsLock(pc) ==>
        (request.UpdateDns? || request.ReadLogs?) && Born(known, pc.ref) && known[pc.ref].id == request.id)
    && (pc.Clearing? || pc.Reinstalling? || pc.PuttingBack? ==>
          Registered(sessions, known, pc.ref) && !known[pc.ref].stopping)
    && (pc.StartingUp? ==>
        Born(known, pc.ref) && known[pc.ref].id == request.id && known[pc.ref].settings == request.settings)
    && (pc == Returning(true) && request.Stop? ==> request.id !in sessions)
  }

  ghost predicate RequestBearings(s: State) {
    s.active.Some? ==> Bearings(s.active.value.request, s.active.value.pc, s.sessions, s.known)
  }

  // Settings belong to the registered session, until its waiter has taken them back.

  ghost predicate DnsOwned(dns: Option<Ref>, stuck: set<Ref>, sessions: map<Id, Ref>, known: map<Ref, Session>,
                           built: bool) {
    dns.Some? && dns.value !in stuck ==>
      && Registered(sessions, known, dns.value)
      && var w := known[dns.value].waiter;
         if w.Unborn? then built else w.Running? || w.Locking? || w.Marking? || w.RestoringDns?
  }

  ghost predicate FilesOwned(files: map<Id, Ref>, stuck: set<Ref>, sessions: map<Id, Ref>, known: map<Ref, Session>,
                             built: bool) {
    forall id :: id in files && files[id] !in stuck ==>
      && Registered(sessions, known, files[id]) && known[files[id]].id == id
      && (if known[files[id]].waiter.Unborn? then built else !known[files[id]].waiter.Deleting?)
  }

  ghost predicate RoutesOwned(routes: set<Ref>, stuck: set<Ref>, sessions: map<Id, Ref>, known: map<Ref, Session>,
                              built: bool) {
    forall r :: r in routes && r !in stuck ==>
      && Registered(sessions, known, r)
      && (if known[r].waiter.Unborn? then built else !known[r].waiter.RemovingFiles? && !known[r].waiter.Deleting?)
  }

  ghost predicate Platform(s: State) {
    && DnsOwned(s.dns, s.dnsStuck, s.sessions, s.known, BuiltDns(s))
    && FilesOwned(s.files, s.filesStuck, s.sessions, s.known, BuiltFiles(s))
    && RoutesOwned(s.routes, s.routesStuck, s.sessions, s.known, BuiltRoutes(s))
  }

  ghost predicate Inv(s: State) {
    && Registry(s.sessions, s.known, Built(s)) && SessionLocks(s.known, Locked(s))
    && MuHeld(s.mu, s.known, RequesterNeedsMu(s), RequesterKeepsMu(s)) && RequestBearings(s) && Platform(s)
  }

  lemma InitiallyInv()
    ensures Inv(INITIAL)
  {
  }

  // ----- one session changes -----

  predicate SameSession(x: Session, y: Session) { y.id == x.id && (y.waiter.Unborn? <==> x.waiter.Unborn?) }

  /** The active request brings a session into being. */
  predicate Brings(pc: Pc) { Building(pc) || pc.StartingUp? }

  /** A change of one session that fits the places of everyone else. */
  ghost predicate Fits(s: State, r: Ref, x: Session) {
    && r in s.known && SameSession(s.known[r], x) && (Served(x.waiter) <==> Served(s.known[r].waiter))
    && (x.stopping <==> Stopped(x.waiter))
    && x.lock ==
       (if WaiterHolds(x.waiter) then Some(ExitWaiter(r)) else if Locked(s) == Some(r) then Some(Requester) else None)
    && (Locked(s) == Some(r) ==> !WaiterHolds(x.waiter) && x.stopping == s.known[r].stopping)
    && (s.active.Some? && Brings(s.active.value.pc) ==> x.settings == s.known[r].settings)
    && (s.mu == Some(ExitWaiter(r)) ==> x.waiter.Deleting?)
    && (s.dns == Some(r) && r !in s.dnsStuck ==>
          x.waiter.Unborn? || x.waiter.Running? || x.waiter.Locking? || x.waiter.Marking? || x.waiter.RestoringDns?)
    && (r !in s.filesStuck && x.waiter.Deleting? ==> forall id :: id in s.files ==> s.files[id] != r)
    && (r !in s.routesStuck && (x.waiter.RemovingFiles? || x.waiter.Deleting?) ==> r !in s.routes)
  }

  lemma RegistryWith(sessions: map<Id, Ref>, known: map<Ref, Session>, built: Option<Ref>, r: Ref, x: Session)
    requires Registry(sessions, known, built) && r in known && SameSession(known[r], x)
    requires (Served(x.waiter) <==> Served(known[r].waiter)) && (x.stopping <==> Stopped(x.waiter))
    ensures Registry(sessions, known[r := x], built)
  {
  }

  lemma SessionLocksWith(known: map<Ref, Session>, locked: Option<Ref>, r: Ref, x: Session)
    requires SessionLocks(known, locked) && r in known && (locked == Some(r) ==> !WaiterHolds(x.waiter))
    requires x.lock ==
             if WaiterHolds(x.waiter) then Some(ExitWaiter(r)) else if locked == Some(r) then Some(Requester) else None
    ensures SessionLocks(known[r := x], locked)
  {
  }

  lemma PlatformWith(s: State, r: Ref, x: Session)
    requires Fits(s, r, x) && Platform(s)
    ensures Platform(s.(known := s.known[r := x]))
  {
  }

  lemma BearingsWith(request: Request, pc: Pc, sessions: map<Id, Ref>, known: map<Ref, Session>, r: Ref, x: Session)
    requires Bearings(request, pc, sessions, known) && r in known && SameSession(known[r], x)
    requires HoldsLock(pc) && pc.ref == r ==> x.stopping == known[r].stopping
    requires Brings(pc) ==> x.settings == known[r].settings
    ensures Bearings(request, pc, sessions, known[r := x])
  {
  }

  lemma FittingChangeKeepsInv(s: State, r: Ref, x: Session)
    requires Inv(s) && Fits(s, r, x)
    ensures Inv(s.(known := s.known[r := x]))
  {
    hide Registry, SessionLocks, Platform, Bearings;
    RegistryWith(s.sessions, s.known, Built(s), r, x);
    SessionLocksWith(s.known, Locked(s), r, x);
    PlatformWith(s, r, x);
    if s.active.Some? { BearingsWith(s.active.value.request, s.active.value.pc, s.sessions, s.known, r, x); }
  }

  lemma RestoringKeepsInv(s: State, r: Ref, ok: bool, debris: Debris)
    requires Inv(s)
    ensures Inv(RestoreDns(s, r, ok, debris))
  {
    hide Registry, SessionLocks, Bearings, FilesOwned, RoutesOwned, MuHeld;
  }

  lemma RemovingKeepsInv(s: State, r: Ref, ok: bool)
    requires Inv(s) && r in s.known
    ensures Inv(RemoveFiles(s, r, ok))
    ensures Registered(s.sessions, s.known, r) && r !in RemoveFiles(s, r, ok).filesStuck ==>
              forall id :: id in RemoveFiles(s, r, ok).files ==> RemoveFiles(s, r, ok).files[id] != r
  {
    hide Registry, SessionLocks, Bearings, DnsOwned, RoutesOwned, MuHeld;
  }

  lemma WaiterLocksKeepInv(s: State, r: Ref, ok: bool, debris: Debris)
    requires Inv(s) && CanWait(s, r) &&
             (s.known[r].waiter.Locking? || s.known[r].waiter.Marking? || s.known[r].waiter.Closing?)
    ensures Inv(WaitFrom(s, r, ok, debris))
  {
    hide Bearings;
    var x := s.known[r];
    FittingChangeKeepsInv(s, r, match x.waiter
      case Locking => x.(lock := Some(ExitWaiter(r)), waiter := Marking)
      case Marking => x.(stopping := true, waiter := RestoringDns)
      case _ => x.(lock := None, waiter := Finished));
  }

  lemma WaiterRestoresKeepInv(s: State, r: Ref, ok: bool, debris: Debris)
    requires Inv(s) && CanWait(s, r) && s.known[r].waiter.RestoringDns?
    ensures Inv(WaitFrom(s, r, ok, debris))
  {
    RestoringKeepsInv(s, r, ok, debris);
    FittingChangeKeepsInv(RestoreDns(s, r, ok, debris), r, s.known[r].(waiter := CleaningRoutes));
  }

  lemma WaiterCleansKeepInv(s: State, r: Ref, ok: bool, debris: Debris)
    requires Inv(s) && CanWait(s, r) && s.known[r].waiter.CleaningRoutes?
    ensures Inv(WaitFrom(s, r, ok, debris))
  {
    FittingChangeKeepsInv(CleanRoutes(s, r, ok), r, s.known[r].(waiter := RemovingFiles));
  }

  lemma WaiterRemovesKeepInv(s: State, r: Ref, ok: bool, debris: Debris)
    requires Inv(s) && CanWait(s, r) && s.known[r].waiter.RemovingFiles?
    ensures Inv(WaitFrom(s, r, ok, debris))
  {
    RemovingKeepsInv(s, r, ok);
    FittingChangeKeepsInv(RemoveFiles(s, r, ok), r, s.known[r].(waiter := Deleting));
  }

  lemma WaiterDeletesKeepInv(s: State, r: Ref, ok: bool, debris: Debris)
    requires Inv(s) && CanWait(s, r) && s.known[r].waiter.Deleting?
    ensures Inv(WaitFrom(s, r, ok, debris))
  {
  }

  // ----- the active request moves on -----

  /** Nothing but the place of the active request changes, and it lets go of mu. */
  predicate Turn(s: State, t: State) {
    && s.active.Some? && t.active.Some? && t.active.value.request == s.active.value.request
    && t == s.(mu := t.mu, active := t.active) && !t.active.value.pc.Grabbing?
    && (t.mu == None || (t.mu == s.mu && s.mu != Some(Requester)))
  }

  lemma TurnKeepsInv(s: State, t: State)
    requires Inv(s) && Turn(s, t) && Built(t) == Built(s) && Locked(t) == Locked(s) && RequestBearings(t)
    requires DnsOwned(t.dns, t.dnsStuck, t.sessions, t.known, BuiltDns(t))
    requires FilesOwned(t.files, t.filesStuck, t.sessions, t.known, BuiltFiles(t))
    requires RoutesOwned(t.routes, t.routesStuck, t.sessions, t.known, BuiltRoutes(t))
    ensures Inv(t)
  {
    hide Registry, SessionLocks, Bearings, DnsOwned, FilesOwned, RoutesOwned, BuiltDns, BuiltFiles, BuiltRoutes, Built,
      Locked;
  }

  /** Places where nothing is being built or locked. */
  predicate Plain(pc: Pc) { !Building(pc) && !HoldsLock(pc) }

  lemma PlainTurnKeepsInv(s: State, t: State)
    requires Inv(s) && Turn(s, t) && Plain(s.active.value.pc) && Plain(t.active.value.pc) && RequestBearings(t)
    ensures Inv(t)
  {
    hide Registry, SessionLocks, Bearings, DnsOwned, FilesOwned, RoutesOwned;
    TurnKeepsInv(s, t);
  }

  lemma EnteringKeepsInv(s: State, ok: bool, debris: Debris, ids: seq<Id>, spare: Ref)
    requires Inv(s) && CanAct(s, ok, debris, ids, spare) &&
             (s.active.value.pc.Entered? || s.active.value.pc.StartingUp?)
    ensures Inv(ActFrom(s, ok, debris, ids, spare))
  {
    hide SessionLocks, DnsOwned, FilesOwned, RoutesOwned, StopFrom, BuildFrom, LockedFrom, Registry;
    PlainTurnKeepsInv(s, ActFrom(s, ok, debris, ids, spare));
  }

  lemma LookingUpKeepsInv(s: State, ok: bool, debris: Debris, ids: seq<Id>, spare: Ref)
    requires Inv(s) && CanAct(s, ok, debris, ids, spare) && s.active.value.pc.LookingUp?
    ensures Inv(ActFrom(s, ok, debris, ids, spare))
  {
    hide SessionLocks, DnsOwned, FilesOwned, RoutesOwned, StopFrom, BuildFrom, LockedFrom, Registry;
    PlainTurnKeepsInv(s, ActFrom(s, ok, debris, ids, spare));
  }

  lemma FindingKeepsInv(s: State, ok: bool, debris: Debris, ids: seq<Id>, spare: Ref)
    requires Inv(s) && CanAct(s, ok, debris, ids, spare) && s.active.value.pc.Finding?
    ensures Inv(ActFrom(s, ok, debris, ids, spare))
  {
    hide SessionLocks, DnsOwned, FilesOwned, RoutesOwned, StopFrom, BuildFrom, LockedFrom;
    PlainTurnKeepsInv(s, ActFrom(s, ok, debris, ids, spare));
  }

  lemma OpeningKeepsInv(s: State, ok: bool, debris: Debris, ids: seq<Id>, spare: Ref)
    requires Inv(s) && CanAct(s, ok, debris, ids, spare) && s.active.value.pc.Opening?
    ensures Inv(ActFrom(s, ok, debris, ids, spare))
  {
    hide SessionLocks, DnsOwned, FilesOwned, RoutesOwned, StopFrom, BuildFrom, LockedFrom;
  }

  lemma ListingKeepsInv(s: State, ok: bool, debris: Debris, ids: seq<Id>, spare: Ref)
    requires Inv(s) && CanAct(s, ok, debris, ids, spare) && s.active.value.pc.Listing?
    ensures Inv(ActFrom(s, ok, debris, ids, spare))
  {
    hide SessionLocks, DnsOwned, FilesOwned, RoutesOwned, BuildFrom, LockedFrom;
    PlainTurnKeepsInv(s, ActFrom(s, ok, debris, ids, spare));
  }

  lemma AwaitingKeepsInv(s: State, ok: bool, debris: Debris, ids: seq<Id>, spare: Ref)
    requires Inv(s) && CanAct(s, ok, debris, ids, spare) && s.active.value.pc.Awaiting?
    ensures Inv(ActFrom(s, ok, debris, ids, spare))
  {
    hide SessionLocks, DnsOwned, FilesOwned, RoutesOwned, BuildFrom, LockedFrom;
    PlainTurnKeepsInv(s, ActFrom(s, ok, debris, ids, spare));
  }

  lemma StoppingBearings(request: Request, left: seq<Id>, sessions: map<Id, Ref>, known: map<Ref, Session>,
                         built: Option<Ref>)
    requires Bearings(request, Stopping(left), sessions, known) && Registry(sessions, known, built)
    ensures Bearings(request, StopNext(request, left, sessions, known), sessions, known)
    ensures !StopNext(request, left, sessions, known).Grabbing? && Plain(StopNext(request, left, sessions, known))
  {
  }

  lemma StoppingKeepsInv(s: State, ok: bool, debris: Debris, ids: seq<Id>, spare: Ref)
    requires Inv(s) && CanAct(s, ok, debris, ids, spare) && s.active.value.pc.Stopping?
    ensures Inv(ActFrom(s, ok, debris, ids, spare))
  {
    hide Registry, SessionLocks, DnsOwned, FilesOwned, RoutesOwned, Bearings, BuildFrom, LockedFrom, StopNext;
    StoppingBearings(s.active.value.request, s.active.value.pc.left, s.sessions, s.known, Built(s));
    PlainTurnKeepsInv(s, ActFrom(s, ok, debris, ids, spare));
  }

  lemma RegistryAdded(sessions: map<Id, Ref>, known: map<Ref, Session>, id: Id, settings: Settings, r: Ref)
    requires Registry(sessions, known, None) && sessions.Keys == {} && r !in known
    ensures Registry(sessions[id := r], known[r := Session(id, settings, None, false, Unborn)], Some(r))
  {
    assert forall q :: q in known ==> !Registered(sessions, known, q);
  }

  lemma PlatformUnregistered(s: State, t: State, r: Ref)
    requires Platform(s) && s.sessions.Keys == {} && r !in s.known
    requires t.dns == s.dns && t.files == s.files && t.routes == s.routes
    requires t.dnsStuck == s.dnsStuck && t.filesStuck == s.filesStuck && t.routesStuck == s.routesStuck
    ensures Platform(t)
  {
    assert forall q :: !Registered(s.sessions, s.known, q);
  }

  lemma RegisteringKeepsInv(s: State, ok: bool, debris: Debris, ids: seq<Id>, spare: Ref)
    requires Inv(s) && CanAct(s, ok, debris, ids, spare) && s.active.value.pc.Registering?
    ensures Inv(ActFrom(s, ok, debris, ids, spare))
  {
    hide StopFrom, BuildFrom, LockedFrom, Registry, Platform;
    var t := ActFrom(s, ok, debris, ids, spare);
    if s.sessions.Keys == {} {
      RegistryAdded(s.sessions, s.known, s.active.value.request.id, s.active.value.request.settings, spare);
      PlatformUnregistered(s, t, spare);
    } else {
      PlainTurnKeepsInv(s, t);
    }
  }

  lemma PublishingKeepsPlatform(s: State, ok: bool, debris: Debris, ids: seq<Id>, spare: Ref)
    requires Inv(s) && CanAct(s, ok, debris, ids, spare) && s.active.value.pc.Publishing?
    ensures Platform(ActFrom(s, ok, debris, ids, spare))
  {
    hide StopFrom, LockedFrom, SessionLocks, MuHeld;
  }

  lemma PublishingKeepsInv(s: State, ok: bool, debris: Debris, ids: seq<Id>, spare: Ref)
    requires Inv(s) && CanAct(s, ok, debris, ids, spare) && s.active.value.pc.Publishing?
    ensures Inv(ActFrom(s, ok, debris, ids, spare))
  {
    hide StopFrom, LockedFrom, Platform;
    PublishingKeepsPlatform(s, ok, debris, ids, spare);
  }

  lemma PreparingKeepsInv(s: State, ok: bool, debris: Debris, ids: seq<Id>, spare: Ref)
    requires Inv(s) && CanAct(s, ok, debris, ids, spare) && s.active.value.pc.Preparing?
    ensures Inv(ActFrom(s, ok, debris, ids, spare))
  {
    hide StopFrom, LockedFrom, SessionLocks;
  }

  lemma EquippingKeepsInv(s: State, ok: bool, debris: Debris, ids: seq<Id>, spare: Ref)
    requires Inv(s) && CanAct(s, ok, debris, ids, spare) && s.active.value.pc.Equipping?
    ensures Inv(ActFrom(s, ok, debris, ids, spare))
  {
    hide StopFrom, LockedFrom, SessionLocks;
  }

  lemma InstallingDnsKeepsInv(s: State, ok: bool, debris: Debris, ids: seq<Id>, spare: Ref)
    requires Inv(s) && CanAct(s, ok, debris, ids, spare) && s.active.value.pc.InstallingDns?
    ensures Inv(ActFrom(s, ok, debris, ids, spare))
  {
    hide StopFrom, LockedFrom, SessionLocks;
  }

  lemma SpawningKeepsInv(s: State, ok: bool, debris: Debris, ids: seq<Id>, spare: Ref)
    requires Inv(s) && CanAct(s, ok, debris, ids, spare) && s.active.value.pc.Spawning?
    ensures Inv(ActFrom(s, ok, debris, ids, spare))
  {
    hide StopFrom, LockedFrom, SessionLocks;
  }

  lemma TakingDnsBackKeepsInv(s: State, ok: bool, debris: Debris, ids: seq<Id>, spare: Ref)
    requires Inv(s) && CanAct(s, ok, debris, ids, spare) && s.active.value.pc.TakingDnsBack?
    ensures Inv(ActFrom(s, ok, debris, ids, spare))
  {
    hide StopFrom, LockedFrom, SessionLocks, FilesOwned, RoutesOwned;
  }

  lemma DiscardingKeepsInv(s: State, ok: bool, debris: Debris, ids: seq<Id>, spare: Ref)
    requires Inv(s) && CanAct(s, ok, debris, ids, spare) && s.active.value.pc.Discarding?
    ensures Inv(ActFrom(s, ok, debris, ids, spare))
  {
    hide StopFrom, LockedFrom, SessionLocks;
  }

  lemma UnregisteringKeepsInv(s: State, ok: bool, debris: Debris, ids: seq<Id>, spare: Ref)
    requires Inv(s) && CanAct(s, ok, debris, ids, spare) && s.active.value.pc.Unregistering?
    ensures Inv(ActFrom(s, ok, debris, ids, spare))
  {
    hide StopFrom, LockedFrom, SessionLocks;
  }

  /** Only the two that hold a session's lock look at it. */
  lemma LockConcernsNoOther(s: State, r: Ref, lock: Option<Who>)
    requires Inv(s) && r in s.known
    ensures var t := WithLock(s, r, lock);
            && Registry(t.sessions, t.known, Built(s)) && Platform(t)
            && MuHeld(t.mu, t.known, RequesterNeedsMu(s), RequesterKeepsMu(s))
    ensures Born(s.known, r) ==> Born(WithLock(s, r, lock).known, r)
  {
    hide SessionLocks, Bearings;
  }

  lemma LockingKeepsInv(s: State, ok: bool, debris: Debris, ids: seq<Id>, spare: Ref)
    requires Inv(s) && CanAct(s, ok, debris, ids, spare) && s.active.value.pc.LockingSession?
    ensures Inv(ActFrom(s, ok, debris, ids, spare))
  {
    hide StopFrom, BuildFrom, Registry, DnsOwned, FilesOwned, RoutesOwned;
    LockConcernsNoOther(s, s.active.value.pc.ref, Some(Requester));
  }

  lemma GrabbingKeepsInv(s: State, ok: bool, debris: Debris, ids: seq<Id>, spare: Ref)
    requires Inv(s) && CanAct(s, ok, debris, ids, spare) && s.active.value.pc.Grabbing?
    ensures Inv(ActFrom(s, ok, debris, ids, spare))
  {
    hide StopFrom, BuildFrom, Registry, DnsOwned, FilesOwned, RoutesOwned;
    LockConcernsNoOther(s, s.active.value.pc.ref, Some(Requester));
  }

  lemma CheckingKeepsInv(s: State, ok: bool, debris: Debris, ids: seq<Id>, spare: Ref)
    requires Inv(s) && CanAct(s, ok, debris, ids, spare) && (s.active.value.pc.Checking? || s.active.value.pc.Reading?)
    ensures Inv(ActFrom(s, ok, debris, ids, spare))
  {
    hide SessionLocks, DnsOwned, FilesOwned, RoutesOwned, BuildFrom, StopFrom, Registry;
    TurnKeepsInv(s, ActFrom(s, ok, debris, ids, spare));
  }

  lemma ClearingKeepsInv(s: State, ok: bool, debris: Debris, ids: seq<Id>, spare: Ref)
    requires Inv(s) && CanAct(s, ok, debris, ids, spare) && s.active.value.pc.Clearing?
    ensures Inv(ActFrom(s, ok, debris, ids, spare))
  {
    hide SessionLocks, DnsOwned, FilesOwned, RoutesOwned, BuildFrom, StopFrom, Registry;
    RestoringKeepsInv(s, s.active.value.pc.ref, ok, debris);
    TurnKeepsInv(RestoreDns(s, s.active.value.pc.ref, ok, debris), ActFrom(s, ok, debris, ids, spare));
  }

  lemma InstallingKeepsInv(s: State, r: Ref, d: Settings, ok: bool, debris: Debris)
    requires Inv(s) && Registered(s.sessions, s.known, r) && (s.known[r].waiter.Running? || s.known[r].waiter.Locking?)
    ensures Inv(ApplyDns(s, r, d, ok, debris))
  {
    hide Registry, SessionLocks, Bearings, FilesOwned, RoutesOwned, MuHeld;
  }

  /** A registered session whose lock the request holds is running, or its waiter waits for that lock. */
  lemma LockedIsRunning(s: State, r: Ref)
    requires Registry(s.sessions, s.known, Built(s)) && SessionLocks(s.known, Some(r))
    requires Registered(s.sessions, s.known, r) && !s.known[r].waiter.Unborn?
    ensures s.known[r].waiter.Running? || s.known[r].waiter.Locking?
  {
  }

  lemma ReinstallingKeepsInv(s: State, ok: bool, debris: Debris, ids: seq<Id>, spare: Ref)
    requires Inv(s) && CanAct(s, ok, debris, ids, spare) && s.active.value.pc.Reinstalling?
    ensures Inv(ActFrom(s, ok, debris, ids, spare))
  {
    hide StopFrom, BuildFrom, Registry, SessionLocks, DnsOwned, FilesOwned, RoutesOwned;
    var r, t := s.active.value.pc.ref, ActFrom(s, ok, debris, ids, spare);
    LockedIsRunning(s, r);
    var d := s.active.value.request.settings;
    InstallingKeepsInv(s, r, d, ok, debris);
    var s1 := ApplyDns(s, r, d, ok, debris);
    if ok {
      var x := s.known[r].(settings := d);
      SettingsFit(s1, r, d);
      FittingChangeKeepsInv(s1, r, x);
      var s2 := s1.(known := s1.known[r := x]);
      RecordKeepsInv(s2, t.unsettled);
      TurnKeepsInv(s2.(unsettled := t.unsettled), t);
    } else {
      TurnKeepsInv(s1, t);
    }
  }

  lemma RecordKeepsInv(s: State, unsettled: set<Ref>)
    requires Inv(s)
    ensures Inv(s.(unsettled := unsettled))
  {
    hide Registry, SessionLocks, Bearings, DnsOwned, FilesOwned, RoutesOwned, MuHeld;
  }

  lemma PuttingBackKeepsInv(s: State, ok: bool, debris: Debris, ids: seq<Id>, spare: Ref)
    requires Inv(s) && CanAct(s, ok, debris, ids, spare) && s.active.value.pc.PuttingBack?
    ensures Inv(ActFrom(s, ok, debris, ids, spare))
  {
    hide StopFrom, BuildFrom, Registry, SessionLocks, DnsOwned, FilesOwned, RoutesOwned;
    var r, t := s.active.value.pc.ref, ActFrom(s, ok, debris, ids, spare);
    LockedIsRunning(s, r);
    InstallingKeepsInv(s, r, s.known[r].settings, ok, debris);
    var s1 := ApplyDns(s, r, s.known[r].settings, ok, debris);
    RecordKeepsInv(s1, t.unsettled);
    TurnKeepsInv(s1.(unsettled := t.unsettled), t);
  }

  lemma SettingsFit(s: State, r: Ref, d: Settings)
    requires Inv(s) && r in s.known && (s.known[r].waiter.Running? || s.known[r].waiter.Locking?)
    requires s.active.Some? ==> !Brings(s.active.value.pc)
    ensures Fits(s, r, s.known[r].(settings := d))
  {
  }

  lemma UnlockingKeepsInv(s: State, ok: bool, debris: Debris, ids: seq<Id>, spare: Ref)
    requires Inv(s) && CanAct(s, ok, debris, ids, spare) && s.active.value.pc.Unlocking?
    ensures Inv(ActFrom(s, ok, debris, ids, spare))
  {
    hide StopFrom, BuildFrom, Registry, DnsOwned, FilesOwned, RoutesOwned;
    LockConcernsNoOther(s, s.active.value.pc.ref, None);
  }

  lemma ReturningKeepsInv(s: State, ok: bool, debris: Debris, ids: seq<Id>, spare: Ref)
    requires Inv(s) && CanAct(s, ok, debris, ids, spare) && s.active.value.pc.Returning?
    ensures Inv(ActFrom(s, ok, debris, ids, spare))
  {
    hide StopFrom, LockedFrom, BuildFrom, Registry, SessionLocks, DnsOwned, FilesOwned, RoutesOwned;
  }

  lemma OtherStepsKeepInv(s: State, step: Step)
    requires Inv(s) && Enabled(s, step) && !step.Act? && !step.Wait? && !step.Exit?
    ensures Inv(After(s, step))
  {
    hide ActFrom, WaitFrom, Registry, SessionLocks, DnsOwned, FilesOwned, RoutesOwned, CanActAt;
  }

  lemma ExitKeepsInv(s: State, r: Ref)
    requires Inv(s) && Enabled(s, Exit(r))
    ensures Inv(After(s, Exit(r)))
  {
    FittingChangeKeepsInv(s, r, s.known[r].(waiter := Locking));
  }

  lemma WaitKeepsInv(s: State, r: Ref, ok: bool, debris: Debris)
    requires Inv(s) && CanWait(s, r)
    ensures Inv(WaitFrom(s, r, ok, debris))
  {
    hide Inv, WaitFrom;
    match s.known[r].waiter
    case RestoringDns => WaiterRestoresKeepInv(s, r, ok, debris);
    case CleaningRoutes => WaiterCleansKeepInv(s, r, ok, debris);
    case RemovingFiles => WaiterRemovesKeepInv(s, r, ok, debris);
    case Deleting => WaiterDeletesKeepInv(s, r, ok, debris);
    case _ => WaiterLocksKeepInv(s, r, ok, debris);
  }

  lemma ActKeepsInv(s: State, ok: bool, debris: Debris, ids: seq<Id>, spare: Ref)
    requires Inv(s) && CanAct(s, ok, debris, ids, spare)
    ensures Inv(ActFrom(s, ok, debris, ids, spare))
  {
    hide Inv, ActFrom, CanActAt;
    match s.active.value.pc
    case Entered => EnteringKeepsInv(s, ok, debris, ids, spare);
    case StartingUp(_) => EnteringKeepsInv(s, ok, debris, ids, spare);
    case LookingUp => LookingUpKeepsInv(s, ok, debris, ids, spare);
    case Listing => ListingKeepsInv(s, ok, debris, ids, spare);
    case Awaiting(_, _) => AwaitingKeepsInv(s, ok, debris, ids, spare);
    case Stopping(_) => StoppingKeepsInv(s, ok, debris, ids, spare);
    case Registering => RegisteringKeepsInv(s, ok, debris, ids, spare);
    case Preparing(_) => PreparingKeepsInv(s, ok, debris, ids, spare);
    case Equipping(_) => EquippingKeepsInv(s, ok, debris, ids, spare);
    case InstallingDns(_) => InstallingDnsKeepsInv(s, ok, debris, ids, spare);
    case Spawning(_) => SpawningKeepsInv(s, ok, debris, ids, spare);
    case Publishing(_) => PublishingKeepsInv(s, ok, debris, ids, spare);
    case TakingDnsBack(_) => TakingDnsBackKeepsInv(s, ok, debris, ids, spare);
    case Discarding(_) => DiscardingKeepsInv(s, ok, debris, ids, spare);
    case Unregistering(_) => UnregisteringKeepsInv(s, ok, debris, ids, spare);
    case Finding => FindingKeepsInv(s, ok, debris, ids, spare);
    case Opening => OpeningKeepsInv(s, ok, debris, ids, spare);
    case LockingSession(_) => LockingKeepsInv(s, ok, debris, ids, spare);
    case Grabbing(_) => GrabbingKeepsInv(s, ok, debris, ids, spare);
    case Checking(_) => CheckingKeepsInv(s, ok, debris, ids, spare);
    case Reading(_) => CheckingKeepsInv(s, ok, debris, ids, spare);
    case Clearing(_) => ClearingKeepsInv(s, ok, debris, ids, spare);
    case Reinstalling(_, _) => ReinstallingKeepsInv(s, ok, debris, ids, spare);
    case PuttingBack(_, _) => PuttingBackKeepsInv(s, ok, debris, ids, spare);
    case Unlocking(_, _) => UnlockingKeepsInv(s, ok, debris, ids, spare);
    case Returning(_) => ReturningKeepsInv(s, ok, debris, ids, spare);
  }

  lemma StepKeepsInv(s: State, step: Step)
    requires Inv(s) && Enabled(s, step)
    ensures Inv(After(s, step))
  {
    hide Inv, ActFrom, WaitFrom;
    match step
    case Act(ok, debris, ids, spare) => ActKeepsInv(s, ok, debris, ids, spare);
    case Wait(r, ok, debris) => WaitKeepsInv(s, r, ok, debris);
    case Exit(r) => ExitKeepsInv(s, r);
    case _ => OtherStepsKeepInv(s, step);
  }

  // ----- what follows for every run -----

  ghost predicate Run(states: seq<State>, steps: seq<Step>) {
    && |states| == |steps| + 1 && states[0] == INITIAL
    && forall i :: 0 <= i < |steps| ==> Enabled(states[i], steps[i]) && states[i + 1] == After(states[i], steps[i])
  }

  lemma {:induction false} RunsKeepInv(states: seq<State>, steps: seq<Step>, i: nat)
    requires Run(states, steps) && i < |states|
    ensures Inv(states[i])
  {
    hide Inv, After, Enabled;
    if i == 0 {
      InitiallyInv();
    } else {
      RunsKeepInv(states, steps, i - 1);
      StepKeepsInv(states[i - 1], steps[i - 1]);
    }
  }

  /** There is never a second session. */
  lemma OneSessionAtMost(s: State)
    requires Inv(s)
    ensures |s.sessions| <= 1
  {
    assert |s.sessions| == |s.sessions.Keys|;
    if s.sessions.Keys != {} {
      var i :| i in s.sessions.Keys;
      assert s.sessions.Keys == {i};
    }
  }

  /** From the step on that takes a session's entry away, nothing of its DNS, routes and files is left, but for
      what could not be taken back. */
  lemma NothingOutlivesItsEntry(s: State, r: Ref)
    requires Inv(s) && !Registered(s.sessions, s.known, r)
    ensures s.dns == Some(r) ==> r in s.dnsStuck
    ensures forall id :: id in s.files && s.files[id] == r ==> r in s.filesStuck
    ensures r in s.routes ==> r in s.routesStuck
  {
  }

  /** The waiter of another session leaves the settings of a registered one alone. */
  lemma WaiterSparesTheOthers(s: State, q: Ref, ok: bool, debris: Debris, r: Ref)
    requires Inv(s) && CanWait(s, q) && Registered(s.sessions, s.known, r) && q != r
    ensures var t := WaitFrom(s, q, ok, debris);
            Registered(t.sessions, t.known, r) && t.dns == s.dns && t.files == s.files && t.routes == s.routes
  {
    hide SessionLocks, MuHeld, RequestBearings, Platform;
    assert !Registered(s.sessions, s.known, q);
  }

  /** A stop that reports success leaves no session of that name, and nothing of one but what could not be removed. */
  lemma StopMeansGone(s: State, id: Id)
    requires Inv(s) && s.active.Some? && s.active.value.request == Stop(id) && s.active.value.pc == Returning(true)
    ensures id !in s.sessions
    ensures forall r :: r in s.known && s.known[r].id == id ==>
              (s.dns == Some(r) ==> r in s.dnsStuck) && (id in s.files && s.files[id] == r ==> r in s.filesStuck) &&
              (r in s.routes ==> r in s.routesStuck)
  {
  }

  /** A session a stop finds is never still starting. */
  lemma NeverStillStarting(s: State, id: Id)
    requires Inv(s) && s.active.Some? && !s.active.value.request.Start? && id in s.sessions
    ensures Born(s.known, s.sessions[id])
  {
  }
}
