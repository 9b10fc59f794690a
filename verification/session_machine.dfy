/** The helper's sessions as one machine of atomic steps, composed with the
    engine of WalMachine (vpntoris-tray/internal/nativehelper/service.go).

    Each critical section of the service lock is entered by one step and left
    by another; the calls of Deactivate in between are the engine's own steps,
    which interleave with those of every Activate, since Activate runs outside
    the lock.  Each session's monitor goroutine is a program counter. */
module SessionMachine {
  import opened Wrappers
  import opened EngineTypes
  import opened WalMachine

  datatype Protocol = FortiGateSSL | OpenVPN | OpenConnect

  datatype SessionState = Connecting | WaitingOtp | Connected | Stopped | Failure

  datatype Monitor =
    | Unstarted                                // Start gave up after launching the process
    | Watching                                 // in the select loop
    | Activating(txn: string, iface: string)   // inside Activate
    | Returned(txn: string, iface: string)     // Activate returned nil, nothing assigned yet
    | Assigned(iface: string)                  // transaction assigned, interface and state not yet
    | SetupFailed                              // about to call fail
    | DeadlinePassed                           // about to call fail
    | AwaitExit                                // waiting for the process
    | Exiting                                  // the process exit was received
    | Finished

  /** `activated`, `released` and `finishes` count the successful Activates,
      the Deactivates of the session's transaction and the runs of finish. */
  datatype Session = Session(
    profile: string,
    protocol: Protocol,
    routes: seq<string>,
    state: SessionState,
    transaction: Option<string>,
    iface: string,
    input: bool,
    log: bool,
    management: bool,
    exited: bool,
    monitor: Monitor,
    activated: nat,
    released: nat,
    finishes: nat)

  datatype Section = StopSection | FailSection(byMonitor: bool) | FinishSection

  datatype Lock =
    | Free
    | Inside(section: Section, sid: nat)
    | ResetLoop(todo: set<nat>)
    | ResetStop(sid: nat, todo: set<nat>)

  /** `starter` remembers which session began a transaction, `blemished` the
      transactions with a failed Owned, Undo or Remove, or with a first save
      that failed after its rename. */
  datatype System = System(
    wal: World,
    table: map<nat, Session>,
    sessions: map<string, nat>,
    lock: Lock,
    starter: map<string, nat>,
    blemished: set<string>)

  datatype Action =
    | StartSession(sid: nat, profile: string, protocol: Protocol, twoFactor: bool, routes: seq<string>, credentialsWritten: bool)
    | SendOtp(profile: string)
    | StopCall(profile: string, withdrawn: set<string>)
    | ResetCall
    | ResetNext(sid: nat, withdrawn: set<string>)
    | ResetDone
    | FailCall(sid: nat, byMonitor: bool, withdrawn: set<string>)
    | FinishCall(sid: nat, withdrawn: set<string>)
    | SectionEnds
    | ProcessExits(sid: nat)
    | ExitReceived(sid: nat)
    | Deadline(sid: nat)
    | PlanRejected(sid: nat)
    | ActivateCall(sid: nat, iface: string, id: string, record: Record, plan: seq<Mutation>, saved: SaveOutcome)
    | ActivateReturns(sid: nat)
    | AssignTransaction(sid: nat)
    | MarkConnected(sid: nat)
    | ManagementConnected(sid: nat)
    | ChallengeReceived(sid: nat)
    | Engine(id: string, event: Event)
    | HelperDies
    | RecoveryStarts(listed: map<string, Thread>)
    | RecoverySucceeds

  // ---- The bodies of the critical sections, on one session ----

  /** What releaseNetworkLocked leaves of the session. */
  function AfterRelease(s: Session): Session {
    s.(transaction := None, iface := "")
  }

  function AfterStop(s: Session): Session {
    AfterRelease(s).(input := false, management := false, state := Stopped)
  }

  function AfterFail(s: Session): Session {
    AfterStop(s).(state := Failure)
  }

  function AfterFinish(s: Session): Session {
    AfterRelease(s).(input := false, log := false, management := false,
                     state := if s.state == Stopped then Stopped else Failure,
                     monitor := Finished, finishes := s.finishes + 1)
  }

  function AfterSection(s: Session, section: Section): Session {
    match section
    case StopSection => AfterStop(s)
    case FailSection(byMonitor) => if byMonitor then AfterFail(s).(monitor := AwaitExit) else AfterFail(s)
    case FinishSection => AfterFinish(s)
  }

  /** A whole critical section on its session: the Deactivate it calls for a
      transaction, then its body. */
  function WholeSection(s: Session, section: Section): Session {
    AfterSection(s.(released := s.released + if s.transaction.Some? then 1 else 0), section)
  }

  function NewSession(profile: string, protocol: Protocol, twoFactor: bool, routes: seq<string>): Session {
    Session(profile, protocol, routes, if twoFactor && protocol != OpenVPN then WaitingOtp else Connecting,
            None, "", protocol != OpenVPN, true, false, false, Watching, 0, 0, 0)
  }

  /** Start refuses a profile whose session is neither stopped nor failed. */
  predicate MayStart(y: System, profile: string) {
    profile in y.sessions && y.sessions[profile] in y.table ==>
      var s := y.table[y.sessions[profile]]; s.state == Stopped || s.state == Failure
  }

  /** What DeleteRoutes of the router can reach when the session is released. */
  function Deletable(s: Session): set<string> {
    if s.transaction.None? && s.iface != "" then set route | route in s.routes :: RouteResource(s.iface, route) else {}
  }

  /** Entering a section that releases the session's network: Deactivate is
      called for a transaction, DeleteRoutes for an interface without one, and
      then some of its routes are `withdrawn`. */
  function EnterRelease(y: System, sid: nat, lock: Lock, withdrawn: set<string>): Option<System> {
    if sid !in y.table || !(withdrawn <= Deletable(y.table[sid])) then None else
    var s := y.table[sid];
    if s.transaction.Some? then
      match Advance(y.wal, Act(s.transaction.value, DeactivateCalled))
      case None => None
      case Some(w) => Some(y.(wal := w, lock := lock, table := y.table[sid := s.(released := s.released + 1)]))
    else if s.iface != "" then
      match Advance(y.wal, RoutesWithdrawn(withdrawn))
      case None => None
      case Some(w) => Some(y.(wal := w, lock := lock))
    else Some(y.(lock := lock))
  }

  /** Deactivate has returned. */
  predicate ReleaseDone(y: System, s: Session) {
    s.transaction.Some? ==> s.transaction.value in y.wal.threads && y.wal.threads[s.transaction.value].pc.Settled?
  }

  function Put(y: System, sid: nat, s: Session): System {
    y.(table := y.table[sid := s])
  }

  function Fault(id: string, e: Event): set<string> {
    if Blocking(e) then {id} else {}
  }

  /** Steps of one session in which the engine stands still. */
  function DoSession(y: System, a: Action): Option<System> {
    match a
    case SendOtp(profile) =>
      if y.lock == Free && profile in y.sessions && y.sessions[profile] in y.table then
        var sid := y.sessions[profile];
        var s := y.table[sid];
        if (s.state == Connecting || s.state == WaitingOtp) && (if s.protocol == OpenVPN then s.management else s.input)
        then Some(Put(y, sid, s.(state := Connecting))) else None
      else None
    case ProcessExits(sid) =>
      if sid in y.table then Some(Put(y, sid, y.table[sid].(exited := true))) else None
    case ExitReceived(sid) =>
      if sid in y.table && y.table[sid].exited && (y.table[sid].monitor == Watching || y.table[sid].monitor == AwaitExit)
      then Some(Put(y, sid, y.table[sid].(monitor := Exiting))) else None
    case Deadline(sid) =>
      if sid in y.table && y.table[sid].monitor == Watching
      then Some(Put(y, sid, y.table[sid].(monitor := DeadlinePassed))) else None
    case PlanRejected(sid) =>
      if sid in y.table && y.table[sid].monitor == Watching
      then Some(Put(y, sid, y.table[sid].(monitor := SetupFailed))) else None
    case ActivateReturns(sid) =>
      if sid in y.table && y.table[sid].monitor.Activating? && y.table[sid].monitor.txn in y.wal.threads then
        var s := y.table[sid];
        match y.wal.threads[s.monitor.txn].pc
        case Established =>
          Some(Put(y, sid, s.(monitor := Returned(s.monitor.txn, s.monitor.iface), activated := s.activated + 1)))
        case Settled(_) => Some(Put(y, sid, s.(monitor := SetupFailed)))
        case _ => None
      else None
    case AssignTransaction(sid) =>
      if y.lock == Free && sid in y.table && y.table[sid].monitor.Returned? then
        var s := y.table[sid];
        Some(Put(y, sid, s.(transaction := Some(s.monitor.txn), monitor := Assigned(s.monitor.iface))))
      else None
    case MarkConnected(sid) =>
      if y.lock == Free && sid in y.table && y.table[sid].monitor.Assigned? then
        var s := y.table[sid];
        Some(Put(y, sid, s.(iface := s.monitor.iface, state := Connected, monitor := AwaitExit)))
      else None
    case ManagementConnected(sid) =>
      if y.lock == Free && sid in y.table && y.table[sid].protocol == OpenVPN
      then Some(Put(y, sid, y.table[sid].(management := true))) else None
    case ChallengeReceived(sid) =>
      if y.lock == Free && sid in y.table && y.table[sid].protocol == OpenVPN
      then Some(Put(y, sid, y.table[sid].(state := WaitingOtp))) else None
    case _ => None
  }

  /** Entering and leaving the sections that release networks. */
  function DoSection(y: System, a: Action): Option<System> {
    match a
    case StopCall(profile, withdrawn) =>
      if y.lock == Free && profile in y.sessions
      then EnterRelease(y, y.sessions[profile], Inside(StopSection, y.sessions[profile]), withdrawn) else None
    case ResetCall =>
      if y.lock == Free
      then Some(y.(lock := ResetLoop(set sid | sid in y.sessions.Values && sid in y.table && y.table[sid].state != Stopped)))
      else None
    case ResetNext(sid, withdrawn) =>
      if y.lock.ResetLoop? && sid in y.lock.todo
      then EnterRelease(y, sid, ResetStop(sid, y.lock.todo - {sid}), withdrawn) else None
    case ResetDone =>
      if y.lock == ResetLoop({}) then Some(y.(lock := Free, sessions := map[])) else None
    case FailCall(sid, byMonitor, withdrawn) =>
      if y.lock == Free && sid in y.table
         && (if byMonitor then y.table[sid].monitor == SetupFailed || y.table[sid].monitor == DeadlinePassed
             else y.table[sid].protocol == OpenVPN)
      then EnterRelease(y, sid, Inside(FailSection(byMonitor), sid), withdrawn) else None
    case FinishCall(sid, withdrawn) =>
      if y.lock == Free && sid in y.table && y.table[sid].monitor == Exiting
      then EnterRelease(y, sid, Inside(FinishSection, sid), withdrawn) else None
    case SectionEnds =>
      (match y.lock
       case Inside(section, sid) =>
         if sid in y.table && ReleaseDone(y, y.table[sid])
         then Some(Put(y, sid, AfterSection(y.table[sid], section)).(lock := Free)) else None
       case ResetStop(sid, todo) =>
         if sid in y.table && ReleaseDone(y, y.table[sid])
         then Some(Put(y, sid, AfterStop(y.table[sid])).(lock := ResetLoop(todo))) else None
       case _ => None)
    case _ => None
  }

  /** New sessions, new transactions, the engine itself. */
  function DoEngine(y: System, a: Action): Option<System> {
    match a
    case StartSession(sid, profile, protocol, twoFactor, routes, credentialsWritten) =>
      if y.lock == Free && sid !in y.table && MayStart(y, profile) then
        var s := NewSession(profile, protocol, twoFactor, routes);
        Some(y.(table := y.table[sid := if credentialsWritten then s else AfterStop(s).(monitor := Unstarted)],
                sessions := y.sessions[profile := sid]))
      else None
    case ActivateCall(sid, iface, id, record, plan, saved) =>
      if sid in y.table && y.table[sid].monitor == Watching && iface != "" then
        match Advance(y.wal, Begin(id, record, plan, saved))
        case None => None
        case Some(w) =>
          var monitor := if saved == Saved then Activating(id, iface) else SetupFailed;
          Some(Put(y, sid, y.table[sid].(monitor := monitor))
               .(wal := w,
                 starter := if saved == Saved then y.starter[id := sid] else y.starter,
                 blemished := if saved == SavedNotSynced then y.blemished + {id} else y.blemished))
      else None
    case Engine(id, e) =>
      if e == DeactivateCalled then None else
      (match Advance(y.wal, Act(id, e))
       case None => None
       case Some(w) => Some(y.(wal := w, blemished := y.blemished + Fault(id, e))))
    case _ => None
  }

  /** The helper can die at any moment, also while it recovers or serves. */
  function Do(y: System, a: Action): Option<System> {
    if a == HelperDies then Some(Dead(y))
    else if y.wal.mode != Serving then DoDown(y, a)
    else if SessionStep(a) then DoSession(y, a)
    else if SectionStep(a) then DoSection(y, a)
    else DoEngine(y, a)
  }

  predicate SessionStep(a: Action) {
    a.SendOtp? || a.ProcessExits? || a.ExitReceived? || a.Deadline? || a.PlanRejected? || a.ActivateReturns?
    || a.AssignTransaction? || a.MarkConnected? || a.ManagementConnected? || a.ChallengeReceived?
  }

  predicate SectionStep(a: Action) {
    a.StopCall? || a.ResetCall? || a.ResetNext? || a.ResetDone? || a.FailCall? || a.FinishCall? || a.SectionEnds?
  }

  function Dead(y: System): System {
    System(World(Down, y.wal.shared, map[]), map[], map[], Free, map[], y.blemished)
  }

  /** Without a serving helper there is only recovery. */
  function DoDown(y: System, a: Action): Option<System> {
    match a
    case RecoveryStarts(listed) =>
      (match Advance(y.wal, StartRecovery(listed)) case None => None case Some(w) => Some(y.(wal := w)))
    case Engine(id, e) =>
      (match Advance(y.wal, Act(id, e))
       case None => None
       case Some(w) => Some(y.(wal := w, blemished := y.blemished + Fault(id, e))))
    case RecoverySucceeds =>
      (match Advance(y.wal, FinishRecovery)
       case None => None
       case Some(w) => Some(y.(wal := w, blemished := {})))
    case _ => None
  }

  predicate Start(y: System) {
    Initial(y.wal) && y.table == map[] && y.sessions == map[] && y.lock == Free && y.starter == map[] && y.blemished == {}
  }

  function Play(y: System, actions: seq<Action>): Option<System>
    decreases |actions|
  {
    if actions == [] then Some(y) else
    match Play(y, actions[..|actions| - 1])
    case None => None
    case Some(z) => Do(z, actions[|actions| - 1])
  }
}
