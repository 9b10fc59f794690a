/** The two layers together: every run of the service is a run of the engine,
    deaths of the helper included, so what is proved about the engine's runs
    holds under the service. */
module SessionRuns {
  import opened Wrappers
  import opened EngineTypes
  import opened WalMachine
  import opened WalSafety
  import opened WalRuns
  import opened WalSharing
  import opened SessionMachine
  import opened SessionSafety

  /** What entering a releasing section makes the engine do. */
  function ReleaseStep(y: System, sid: nat, withdrawn: set<string>): Option<Step> {
    if sid !in y.table then None
    else if y.table[sid].transaction.Some? then Some(Act(y.table[sid].transaction.value, DeactivateCalled))
    else if y.table[sid].iface != "" then Some(RoutesWithdrawn(withdrawn))
    else None
  }

  /** What an action of the service makes the engine do. */
  function EngineStep(y: System, a: Action): Option<Step> {
    match a
    case HelperDies => Some(Crash)
    case RecoveryStarts(listed) => Some(StartRecovery(listed))
    case RecoverySucceeds => Some(FinishRecovery)
    case Engine(id, e) => Some(Act(id, e))
    case ActivateCall(_, _, id, record, plan, saved) => Some(Begin(id, record, plan, saved))
    case StopCall(profile, withdrawn) => if profile in y.sessions then ReleaseStep(y, y.sessions[profile], withdrawn) else None
    case ResetNext(sid, withdrawn) => ReleaseStep(y, sid, withdrawn)
    case FailCall(sid, _, withdrawn) => ReleaseStep(y, sid, withdrawn)
    case FinishCall(sid, withdrawn) => ReleaseStep(y, sid, withdrawn)
    case _ => None
  }

  /** The engine went from one world to another by at most this step. */
  predicate Moves(w: World, step: Option<Step>, w': World) {
    match step case None => w' == w case Some(st) => Advance(w, st) == Some(w')
  }

  lemma {:induction false} ReleaseMoves(y: System, sid: nat, lock: Lock, withdrawn: set<string>)
    requires EnterRelease(y, sid, lock, withdrawn).Some?
    ensures Moves(y.wal, ReleaseStep(y, sid, withdrawn), EnterRelease(y, sid, lock, withdrawn).value.wal)
  {
  }

  lemma {:induction false} SectionMoves(y: System, a: Action)
    requires SectionStep(a) && DoSection(y, a).Some?
    ensures Moves(y.wal, EngineStep(y, a), DoSection(y, a).value.wal)
  {
    match a
    case StopCall(profile, withdrawn) => ReleaseMoves(y, y.sessions[profile], Inside(StopSection, y.sessions[profile]), withdrawn);
    case ResetNext(sid, withdrawn) => ReleaseMoves(y, sid, ResetStop(sid, y.lock.todo - {sid}), withdrawn);
    case FailCall(sid, byMonitor, withdrawn) => ReleaseMoves(y, sid, Inside(FailSection(byMonitor), sid), withdrawn);
    case FinishCall(sid, withdrawn) => ReleaseMoves(y, sid, Inside(FinishSection, sid), withdrawn);
    case _ =>
  }

  lemma {:induction false} SessionMoves(y: System, a: Action)
    requires SessionStep(a) && DoSession(y, a).Some?
    ensures EngineStep(y, a) == None && DoSession(y, a).value.wal == y.wal
  {
  }

  lemma {:induction false} EngineMoves(y: System, a: Action)
    requires DoEngine(y, a).Some?
    ensures Moves(y.wal, EngineStep(y, a), DoEngine(y, a).value.wal)
  {
  }

  lemma {:induction false} DownMoves(y: System, a: Action)
    requires DoDown(y, a).Some?
    ensures Moves(y.wal, EngineStep(y, a), DoDown(y, a).value.wal)
  {
  }

  lemma {:induction false} ActionMoves(y: System, a: Action)
    requires Do(y, a).Some?
    ensures Moves(y.wal, EngineStep(y, a), Do(y, a).value.wal)
  {
    if a == HelperDies {
    } else if y.wal.mode != Serving {
      DownMoves(y, a);
    } else if SessionStep(a) {
      SessionMoves(y, a);
    } else if SectionStep(a) {
      SectionMoves(y, a);
    } else {
      EngineMoves(y, a);
    }
  }

  /** The steps of the engine in a run of the service. */
  function EngineSteps(y: System, actions: seq<Action>): seq<Step>
    decreases |actions|
  {
    if actions == [] then [] else
    var init := actions[..|actions| - 1];
    EngineSteps(y, init)
    + (match Play(y, init)
       case None => []
       case Some(z) => match EngineStep(z, actions[|actions| - 1]) case None => [] case Some(st) => [st])
  }

  lemma {:induction false} RunOne(w: World, steps: seq<Step>, u: World, step: Step)
    requires Run(w, steps) == Some(u)
    ensures Run(w, steps + [step]) == Advance(u, step)
  {
    assert (steps + [step])[..|steps|] == steps;
  }

  /** Under every run of the service the engine makes one of its own runs. */
  lemma {:induction false} PlayIsRun(y: System, actions: seq<Action>)
    requires Play(y, actions).Some?
    ensures Run(y.wal, EngineSteps(y, actions)) == Some(Play(y, actions).value.wal)
    decreases |actions|
  {
    if actions != [] {
      var init, a := actions[..|actions| - 1], actions[|actions| - 1];
      var z := Play(y, init).value;
      PlayIsRun(y, init);
      ActionMoves(z, a);
      match EngineStep(z, a)
      case None => assert EngineSteps(y, init) + [] == EngineSteps(y, init);
      case Some(st) => RunOne(y.wal, EngineSteps(y, init), z.wal, st);
    }
  }

  /** However often the helper died, while it served sessions, inside a section
      or inside an earlier recovery: when it serves again there is no session,
      the journal is empty and nothing is in place. */
  lemma {:induction false} DeathsLeaveNothing(y: System, actions: seq<Action>, z: System)
    requires Start(y) && Play(y, actions) == Some(z) && Do(z, RecoverySucceeds).Some?
    ensures var v := Do(z, RecoverySucceeds).value;
            && v.wal.mode == Serving && v.wal.shared.files == map[] && v.wal.shared.held == map[]
            && v.table == map[] && v.sessions == map[] && v.lock == Free && v.blemished == {}
  {
    StartsProperly(y);
    PlayKeepsInv(y, actions);
    FinishedRecoveryClean(z.wal);
  }

  /** A dying helper loses its sessions and nothing else: what was in place
      stays in place, and the journal still names it. */
  lemma {:induction false} DeathKeepsNetwork(y: System, actions: seq<Action>, z: System, r: string)
    requires Start(y) && Play(y, actions) == Some(z) && r in z.wal.shared.held
    ensures Do(z, HelperDies).Some?
    ensures var v := Do(z, HelperDies).value;
            && v.table == map[] && v.wal.mode == Down && v.wal.shared == z.wal.shared
            && v.wal.shared.held[r] in v.wal.shared.files
            && Claims(v.wal.shared.tracked, v.wal.shared.files[v.wal.shared.held[r]], r)
  {
    StartsProperly(y);
    PlayKeepsInv(y, actions);
  }

  // ---- Routes deleted outside the engine ----

  predicate Withdraws(a: Action, r: string) {
    match a
    case StopCall(_, withdrawn) => r in withdrawn
    case ResetNext(_, withdrawn) => r in withdrawn
    case FailCall(_, _, withdrawn) => r in withdrawn
    case FinishCall(_, withdrawn) => r in withdrawn
    case _ => false
  }

  predicate Untouched(actions: seq<Action>, r: string) {
    forall k :: 0 <= k < |actions| ==> !Withdraws(actions[k], r)
  }

  /** Only routes that a session without a transaction has on its own interface
      are ever deleted outside the engine. */
  lemma {:induction false} OnlyOwnRoutes(z: System, a: Action, r: string)
    requires Do(z, a).Some? && Withdraws(a, r)
    ensures exists sid, route :: sid in z.table && route in z.table[sid].routes && z.table[sid].transaction == None
                                 && z.table[sid].iface != "" && r == RouteResource(z.table[sid].iface, route)
  {
    hide Advance;
    var sid := match a
      case StopCall(profile, _) => z.sessions[profile]
      case ResetNext(sid, _) => sid
      case FailCall(sid, _, _) => sid
      case FinishCall(sid, _) => sid;
    assert r in Deletable(z.table[sid]);
    var route :| route in z.table[sid].routes && r == RouteResource(z.table[sid].iface, route);
  }

  /** So what is in place for a domain is never deleted outside the engine. */
  lemma {:induction false} DomainsUntouched(y: System, actions: seq<Action>, domain: string)
    requires Play(y, actions).Some?
    ensures Untouched(actions, DomainResource(domain))
    decreases |actions|
  {
    hide Do, Withdraws;
    if actions != [] {
      var init, a := actions[..|actions| - 1], actions[|actions| - 1];
      DomainsUntouched(y, init, domain);
      assert forall k :: 0 <= k < |init| ==> actions[k] == init[k];
      if Withdraws(a, DomainResource(domain)) {
        var z := Play(y, init).value;
        OnlyOwnRoutes(z, a, DomainResource(domain));
        var sid, route :| sid in z.table && DomainResource(domain) == RouteResource(z.table[sid].iface, route);
        DomainIsNoRoute(domain, z.table[sid].iface, route);
      }
    }
  }

  lemma {:induction false} DomainIsNoRoute(domain: string, iface: string, route: string)
    ensures DomainResource(domain) != RouteResource(iface, route)
  {
    assert DomainResource(domain)[0] == 'd' && RouteResource(iface, route)[0] == 'r';
  }
}
