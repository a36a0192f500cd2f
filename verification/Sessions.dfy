/** The privileged helper's tunnel sessions: requests, exit waiters and three kinds of lock, step by step.
    A request holds the lifecycle lock from its first step to its last, so that lock is the `active` field. */
module Sessions {

  datatype Option<+T> = None | Some(value: T)

  type Id = nat
  type Ref = nat
  type Settings = nat // a DNS configuration

  datatype Request =
    | Start(id: Id, settings: Settings) | Stop(id: Id) | StopAll
    | UpdateDns(id: Id, settings: Settings) | ReadLogs(id: Id)

  /** Where the active request is. */
  datatype Pc =
    | Entered
    | LookingUp                          // needs mu: is the session there, are there others?
    | Listing                            // needs mu: which sessions are there?
    | Stopping(left: seq<Id>)            // needs mu: the session to stop next
    | Awaiting(ref: Ref, left: seq<Id>)  // the process was told to stop
    | Registering                        // needs mu
    | Preparing(ref: Ref)                // directory and configuration
    | Equipping(ref: Ref)                // core binary and log file
    | InstallingDns(ref: Ref)
    | Spawning(ref: Ref)
    | Publishing(ref: Ref)               // needs mu: the process is known, the waiter starts
    | StartingUp(ref: Ref)
    | TakingDnsBack(ref: Ref)
    | Discarding(ref: Ref)
    | Unregistering(ref: Ref)            // needs mu
    | Finding                            // needs mu
    | LockingSession(ref: Ref)           // needs the session's lock
    | Checking(ref: Ref)                 // has the session's lock, needs mu
    | Clearing(ref: Ref)                 // has the session's lock
    // Both have the session's lock; `touched` says that what was installed is no longer as the update found it.
    | Reinstalling(ref: Ref, touched: bool)
    | PuttingBack(ref: Ref, touched: bool)
    | Opening                            // needs mu, and keeps it
    | Grabbing(ref: Ref)                 // has mu, needs the session's lock
    | Reading(ref: Ref)                  // has the session's lock
    | Unlocking(ref: Ref, ok: bool)      // has the session's lock
    | Returning(ok: bool)

  /** Where the exit waiter of a session is. */
  datatype Waiter =
    | Unborn | Running
    | Locking                            // the process has ended; needs the session's lock
    | Marking | RestoringDns | CleaningRoutes | RemovingFiles
    | Deleting                           // needs mu
    | Closing | Finished                 // finished: the done channel is closed

  datatype Who = Requester | ExitWaiter(ref: Ref) | Observer

  datatype Session = Session(id: Id, settings: Settings, lock: Option<Who>, stopping: bool, waiter: Waiter)
  // `late` are the sessions whose stop this request has given up waiting for.
  datatype Active = Active(request: Request, pc: Pc, late: set<Id> := {})

  /** What a change of the DNS leaves behind when it fails. */
  datatype Debris = Unchanged | Incomplete | Nothing

  datatype State = State(
    closing: bool, active: Option<Active>, mu: Option<Who>, sessions: map<Id, Ref>, known: map<Ref, Session>,
    dns: Option<Ref>, applied: Option<Settings>, // whose split DNS is installed, and which, unless incomplete
    routes: set<Ref>, files: map<Id, Ref>,
    dnsStuck: set<Ref>, filesStuck: set<Ref>, routesStuck: set<Ref>, // sessions for which a removal has failed
    unsettled: set<Ref>) // sessions whose settings an update has changed and failed to put back

  datatype Step =
    | Begin(request: Request)            // take the lifecycle lock
    | TakeMu(who: Who)
    | Act(ok: bool, debris: Debris, ids: seq<Id>, spare: Ref) // the next action of the active request
    | Wait(ref: Ref, ok: bool, debris: Debris) // the next action of an exit waiter
    | Exit(ref: Ref)                     // a core process ends
    | Observed                           // a status query lets go of mu
    | Close

  // ----- what each thread needs -----

  predicate NeedsMu(pc: Pc) {
    pc.LookingUp? || pc.Listing? || (pc.Stopping? && pc.left != []) || pc.Registering? || pc.Publishing? ||
    pc.Unregistering? || pc.Finding? || pc.Checking? || pc.Opening? || pc.Grabbing?
  }

  predicate HoldsLock(pc: Pc) {
    pc.Checking? || pc.Clearing? || pc.Reinstalling? || pc.PuttingBack? || pc.Reading? || pc.Unlocking?
  }

  /** The waiter has the session's lock. */
  predicate WaiterHolds(w: Waiter) { !w.Unborn? && !w.Running? && !w.Locking? && !w.Finished? }

  predicate NeedsLock(pc: Pc) { pc.LockingSession? || pc.Grabbing? }

  /** The active request is busy with a session it has registered and not yet handed to a waiter. */
  predicate Building(pc: Pc) {
    pc.Preparing? || pc.Equipping? || pc.InstallingDns? || pc.Spawning? || pc.Publishing? || pc.TakingDnsBack? ||
    pc.Discarding? || pc.Unregistering?
  }

  predicate Registered(sessions: map<Id, Ref>, known: map<Ref, Session>, r: Ref) {
    r in known && known[r].id in sessions && sessions[known[r].id] == r
  }

  // ----- the active request -----

  function At(s: State, pc: Pc): State
    requires s.active.Some?
  {
    s.(active := Some(s.active.value.(pc := pc)))
  }

  function Late(s: State, id: Id): State
    requires s.active.Some?
  {
    s.(active := Some(s.active.value.(late := s.active.value.late + {id})))
  }

  function WithLock(s: State, r: Ref, lock: Option<Who>): State
    requires r in s.known
  {
    s.(known := s.known[r := s.known[r].(lock := lock)])
  }

  function WithWaiter(s: State, r: Ref, w: Waiter): State
    requires r in s.known
  {
    s.(known := s.known[r := s.known[r].(waiter := w)])
  }

  /** ApplyDNS: it may fail before it has changed anything or halfway. */
  function ApplyDns(s: State, r: Ref, settings: Settings, ok: bool, debris: Debris): State {
    if ok then s.(dns := Some(r), applied := Some(settings))
    else
      match debris
      case Unchanged => s
      case Incomplete => s.(dns := Some(r), applied := None)
      case Nothing => s.(dns := None)
  }

  /** RestoreDNS: an error is logged or ignored. */
  function RestoreDns(s: State, r: Ref, ok: bool, debris: Debris): State {
    if ok then s.(dns := None)
    else
      var stuck := s.(dnsStuck := s.dnsStuck + {r});
      match debris
      case Unchanged => stuck
      case Incomplete => stuck.(applied := None)
      case Nothing => stuck.(dns := None)
  }

  /** CleanupRoutes: an error is ignored. */
  function CleanRoutes(s: State, r: Ref, ok: bool): State {
    if ok then s.(routes := s.routes - {r}) else s.(routesStuck := s.routesStuck + {r})
  }

  function RemoveFiles(s: State, r: Ref, ok: bool): State
    requires r in s.known
  {
    if ok then s.(files := s.files - {s.known[r].id}) else s.(filesStuck := s.filesStuck + {r})
  }

  predicate CanAct(s: State, ok: bool, debris: Debris, ids: seq<Id>, spare: Ref) {
    s.active.Some? && CanActAt(s, s.active.value.request, s.active.value.pc, ok, debris, ids, spare)
  }

  predicate CanActAt(s: State, request: Request, pc: Pc, ok: bool, debris: Debris, ids: seq<Id>, spare: Ref) {
    && (NeedsMu(pc) ==> s.mu == Some(Requester))
    && (Building(pc) || HoldsLock(pc) || pc.Awaiting? || pc.StartingUp? || NeedsLock(pc) ==> pc.ref in s.known)
    && (pc.Listing? ==> (forall id | id in ids :: id in s.sessions) && (forall id | id in s.sessions :: id in ids))
    && (pc.Awaiting? ==> pc.left != [] && (ok ==> s.known[pc.ref].waiter.Finished?)) // else time is up
    && (pc.Registering? ==> request.Start? && spare !in s.known)
    && (pc.Reinstalling? ==> request.UpdateDns?)
    && (pc.StartingUp? && !ok ==> !s.known[pc.ref].waiter.Running?)
    && (NeedsLock(pc) ==> s.known[pc.ref].lock.None?)
  }

  /** After stopping one session: the next one, or for a single stop, the answer. */
  function Next(request: Request, left: seq<Id>, ok: bool): Pc
    requires left != []
  {
    if request.Stop? then Returning(ok) else Stopping(left[1..])
  }

  /** Taking the request up; its specification or settings may be refused. */
  function Enter(request: Request, closing: bool, ok: bool): Pc {
    match request
    case Start(_, _) => if closing || !ok then Returning(false) else LookingUp
    case Stop(id) => Stopping([id])
    case StopAll => Listing
    case UpdateDns(_, _) => if ok then Finding else Returning(false)
    case ReadLogs(_) => if ok then Opening else Returning(false)
  }

  /** Looking the next session to stop up. */
  function StopNext(request: Request, left: seq<Id>, sessions: map<Id, Ref>, known: map<Ref, Session>): Pc {
    if left == [] then if request.Start? then Registering else Returning(true)
    else if left[0] !in sessions then Next(request, left, true)
    else if sessions[left[0]] !in known || known[sessions[left[0]]].waiter.Unborn? then
      Next(request, left, false) // still starting
    else Awaiting(sessions[left[0]], left)
  }

  predicate StopsSessions(pc: Pc) { pc.Listing? || pc.Stopping? || pc.Awaiting? }

  function StopFrom(s: State, request: Request, pc: Pc, ok: bool, ids: seq<Id>): State
    requires s.active.Some? && StopsSessions(pc) && (pc.Awaiting? ==> pc.left != [])
  {
    var unlocked := s.(mu := None);
    match pc
    case Listing => At(unlocked, Stopping(ids))
    case Stopping(left) =>
      At(if left == [] then s else unlocked, StopNext(request, left, s.sessions, s.known))
    case Awaiting(r, left) => At(if ok then s else Late(s, left[0]), Next(request, left, ok))
    case _ => s
  }

  function BuildFrom(s: State, pc: Pc, ok: bool, debris: Debris): State
    requires s.active.Some? && Building(pc) && pc.ref in s.known
  {
    var r := pc.ref;
    match pc
    case Preparing(_) =>
      if ok then At(s.(files := s.files[s.known[r].id := r]), Equipping(r)) else At(s, Unregistering(r))
    case Equipping(_) => At(s, if ok then InstallingDns(r) else Discarding(r))
    case InstallingDns(_) =>
      At(ApplyDns(s, r, s.known[r].settings, ok, debris), if ok then Spawning(r) else TakingDnsBack(r))
    case Spawning(_) => if ok then At(s.(routes := s.routes + {r}), Publishing(r)) else At(s, TakingDnsBack(r))
    case Publishing(_) => At(WithWaiter(s.(mu := None), r, Running), StartingUp(r))
    case TakingDnsBack(_) => At(RestoreDns(s, r, ok, debris), Discarding(r))
    case Discarding(_) => At(RemoveFiles(s, r, ok), Unregistering(r))
    case Unregistering(_) => At(s.(mu := None, sessions := s.sessions - {s.known[r].id}), Returning(false))
    case _ => s
  }

  function LockedFrom(s: State, request: Request, pc: Pc, ok: bool, debris: Debris): State
    requires s.active.Some? && (pc.Reinstalling? ==> request.UpdateDns?) && (HoldsLock(pc) || NeedsLock(pc)) &&
             pc.ref in s.known
  {
    var r := pc.ref;
    match pc
    case LockingSession(_) => At(WithLock(s, r, Some(Requester)), Checking(r))
    case Checking(_) =>
      At(s.(mu := None),
         if Registered(s.sessions, s.known, r) && !s.known[r].stopping then Clearing(r) else Unlocking(r, false))
    case Clearing(_) => At(RestoreDns(s, r, ok, debris), Reinstalling(r, ok || !debris.Unchanged?))
    case Reinstalling(_, touched) =>
      var tried := ApplyDns(s, r, request.settings, ok, debris);
      if ok then
        At(tried.(known := s.known[r := s.known[r].(settings := request.settings)], unsettled := s.unsettled - {r}),
           Unlocking(r, true))
      else At(tried, PuttingBack(r, touched || !debris.Unchanged?))
    case PuttingBack(_, touched) =>
      var tried := ApplyDns(s, r, s.known[r].settings, ok, debris);
      At(tried.(unsettled := if ok then s.unsettled - {r}
                             else if touched || !debris.Unchanged? then s.unsettled + {r} else s.unsettled),
         Unlocking(r, false))
    case Grabbing(_) => At(WithLock(s.(mu := None), r, Some(Requester)), Reading(r))
    case Reading(_) => At(s, Unlocking(r, ok))
    case Unlocking(_, result) => At(WithLock(s, r, None), Returning(result))
    case _ => s
  }

  function ActFrom(s: State, ok: bool, debris: Debris, ids: seq<Id>, spare: Ref): State
    requires CanAct(s, ok, debris, ids, spare)
  {
    var request, pc := s.active.value.request, s.active.value.pc;
    if StopsSessions(pc) then StopFrom(s, request, pc, ok, ids)
    else if Building(pc) then BuildFrom(s, pc, ok, debris)
    else if HoldsLock(pc) || NeedsLock(pc) then LockedFrom(s, request, pc, ok, debris)
    else
      match pc
      case Entered => At(s, Enter(request, s.closing, ok))
      case LookingUp =>
        if request.Start? && request.id in s.sessions then At(s.(mu := None), Returning(true))
        else At(s.(mu := None), if s.sessions.Keys != {} then Listing else Registering)
      case Registering =>
        if s.sessions.Keys != {} then At(s.(mu := None), Returning(false))
        else At(s.(mu := None, sessions := s.sessions[request.id := spare],
                   known := s.known[spare := Session(request.id, request.settings, None, false, Unborn)]),
                 Preparing(spare))
      case StartingUp(r) => At(s, Returning(ok))
      case Finding =>
        if request.UpdateDns? && request.id in s.sessions then
          At(s.(mu := None), LockingSession(s.sessions[request.id]))
        else At(s.(mu := None), Returning(false))
      case Opening =>
        if request.ReadLogs? && request.id in s.sessions then At(s, Grabbing(s.sessions[request.id]))
        else At(s.(mu := None), Returning(false))
      case _ => s.(active := None) // returning
  }

  // ----- the exit waiter -----

  predicate CanWait(s: State, r: Ref) {
    r in s.known &&
    match s.known[r].waiter
    case Unborn => false
    case Running => false
    case Finished => false
    case Locking => s.known[r].lock.None?
    case Deleting => s.mu == Some(ExitWaiter(r))
    case _ => true
  }

  function WaitFrom(s: State, r: Ref, ok: bool, debris: Debris): State
    requires CanWait(s, r)
  {
    var session := s.known[r];
    match session.waiter
    case Locking => s.(known := s.known[r := session.(lock := Some(ExitWaiter(r)), waiter := Marking)])
    case Marking => s.(known := s.known[r := session.(stopping := true, waiter := RestoringDns)])
    case RestoringDns => WithWaiter(RestoreDns(s, r, ok, debris), r, CleaningRoutes)
    case CleaningRoutes => WithWaiter(CleanRoutes(s, r, ok), r, RemovingFiles)
    case RemovingFiles => WithWaiter(RemoveFiles(s, r, ok), r, Deleting)
    case Deleting =>
      var left := if Registered(s.sessions, s.known, r) then s.sessions - {session.id} else s.sessions;
      WithWaiter(s.(mu := None, sessions := left), r, Closing)
    case Closing => s.(known := s.known[r := session.(lock := None, waiter := Finished)])
    case _ => s
  }

  // ----- all steps -----

  predicate Enabled(s: State, step: Step) {
    match step
    case Begin(_) => s.active.None?
    case TakeMu(who) => s.mu.None? && (
      match who
      case Requester => s.active.Some? && NeedsMu(s.active.value.pc)
      case ExitWaiter(r) => r in s.known && s.known[r].waiter.Deleting?
      case Observer => true)
    case Act(ok, debris, ids, spare) => CanAct(s, ok, debris, ids, spare)
    case Wait(r, _, _) => CanWait(s, r)
    case Exit(r) => r in s.known && s.known[r].waiter.Running?
    case Observed => s.mu == Some(Observer)
    case Close => true
  }

  function After(s: State, step: Step): State
    requires Enabled(s, step)
  {
    match step
    case Begin(request) => s.(active := Some(Active(request, Entered)))
    case TakeMu(who) => s.(mu := Some(who))
    case Act(ok, debris, ids, spare) => ActFrom(s, ok, debris, ids, spare)
    case Wait(r, ok, debris) => WaitFrom(s, r, ok, debris)
    case Exit(r) => WithWaiter(s, r, Locking)
    case Observed => s.(mu := None)
    case Close => s.(closing := true)
  }

  const INITIAL := State(false, None, None, map[], map[], None, None, {}, map[], {}, {}, {}, {})
}
