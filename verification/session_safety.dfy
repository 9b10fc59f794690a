/** What every interleaving of sessions keeps: each transaction is released
    exactly once, nothing is left behind, and a finished session stays so. */
module SessionSafety {
  import opened Wrappers
  import opened EngineTypes
  import opened WalMachine
  import opened WalSafety
  import opened SessionMachine

  /** The transaction a session has to see released. */
  function Charge(s: Session): Option<string> {
    match s.monitor
    case Activating(txn, _) => Some(txn)
    case Returned(txn, _) => Some(txn)
    case _ => s.transaction
  }

  /** The section that is open is releasing this session. */
  predicate Releasing(lock: Lock, sid: nat) {
    match lock
    case Inside(_, s) => s == sid
    case ResetStop(s, _) => s == sid
    case _ => false
  }

  /** Before anything could have been assigned. */
  predicate Early(m: Monitor) {
    m.Unstarted? || m.Watching? || m.Activating? || m.Returned? || m.SetupFailed? || m.DeadlinePassed?
  }

  predicate Ended(s: Session) {
    && (s.state == Stopped || s.state == Failure)
    && s.transaction == None && s.iface == "" && !s.input && !s.log && !s.management
  }

  predicate SessionInv(s: Session, releasing: bool) {
    && s.finishes == (if s.monitor == Finished then 1 else 0)
    && (Early(s.monitor) ==>
          s.transaction == None && s.iface == "" && s.released == 0 && s.activated == (if s.monitor.Returned? then 1 else 0))
    && (!Early(s.monitor) ==>
          && s.activated <= 1
          && (s.transaction.Some? ==> s.activated == 1 && s.released == (if releasing then 1 else 0))
          && (s.transaction.None? ==> s.released == s.activated))
    && (s.monitor.Assigned? ==> s.activated == 1 && s.iface == "")
    && (s.iface != "" ==> s.activated == 1)
    && (s.monitor == Finished ==> s.exited && s.transaction == None && s.iface == "" && (s.protocol != OpenVPN ==> Ended(s)))
    && (s.monitor == Exiting ==> s.exited)
    && (s.protocol != OpenVPN ==> !s.management)
  }

  predicate Undoing(pc: Pc) {
    pc.StartRollback? || pc.Scan? || pc.CallUndo? || pc.SaveUndone? || pc.Settled?
  }

  /** Where the engine stands with the transaction of a session. */
  predicate StageOk(s: Session, releasing: bool, pc: Pc) {
    match s.monitor
    case Activating(_, _) => true
    case Returned(_, _) => pc == Established
    case _ => if releasing then Undoing(pc) else pc == Established
  }

  /** Rollback met an error of its own. */
  predicate Troubled(pc: Pc) {
    match pc
    case Scan(_, failed) => failed
    case CallUndo(_, failed) => failed
    case SaveUndone(_, failed) => failed
    case Settled(failed) => failed
    case _ => false
  }

  predicate Charged(y: System, sid: nat)
    requires sid in y.table
  {
    var s := y.table[sid];
    Charge(s).Some? ==>
      var id := Charge(s).value;
      id in y.starter && y.starter[id] == sid && id in y.wal.threads
      && StageOk(s, Releasing(y.lock, sid), y.wal.threads[id].pc)
  }

  predicate Accounted(y: System, id: string)
    requires id in y.wal.threads
  {
    && id in y.starter
    && ((y.starter[id] in y.table && Charge(y.table[y.starter[id]]) == Some(id)) || y.wal.threads[id].pc.Settled?)
  }

  predicate LockInv(y: System) {
    match y.lock
    case Free => true
    case Inside(section, sid) =>
      sid in y.table
      && (section == FinishSection ==> y.table[sid].monitor == Exiting)
      && (section == FailSection(true) ==> y.table[sid].monitor == SetupFailed || y.table[sid].monitor == DeadlinePassed)
      && (section == FailSection(false) ==> y.table[sid].protocol == OpenVPN)
    case ResetLoop(todo) => todo <= y.table.Keys
    case ResetStop(sid, todo) => sid in y.table && todo <= y.table.Keys
  }

  ghost predicate ServiceInv(y: System) {
    && (forall sid :: sid in y.table ==> SessionInv(y.table[sid], Releasing(y.lock, sid)))
    && (forall sid :: sid in y.table ==> Charged(y, sid))
    && (forall id :: id in y.wal.threads ==> Accounted(y, id))
    && LockInv(y)
    && (forall p :: p in y.sessions ==> y.sessions[p] in y.table)
  }

  ghost predicate LedgerInv(y: System) {
    && (forall id :: id in y.wal.threads && Troubled(y.wal.threads[id].pc) ==> id in y.blemished)
    && (y.wal.mode == Serving ==> y.wal.shared.files.Keys <= y.wal.threads.Keys + y.blemished)
  }

  ghost predicate SystemInv(y: System) {
    && WorldInv(y.wal) && LedgerInv(y)
    && (y.wal.mode == Serving ==> ServiceInv(y))
    && (y.wal.mode != Serving ==> y.table == map[] && y.sessions == map[] && y.lock == Free)
  }

  // ---- The engine's own steps ----

  /** How an event moves the code of a transaction. */
  lemma {:induction false} FirePc(id: string, c: Config, e: Event)
    requires Fire(id, c, e).Some? && e != DeactivateCalled
    ensures var pc, next := c.thread.pc, Fire(id, c, e).value.thread.pc;
            && pc != Established && !pc.Settled?
            && (Undoing(pc) ==> Undoing(next))
            && (Troubled(next) ==> Troubled(pc) || Blocking(e))
    ensures var c' := Fire(id, c, e).value;
            c'.shared.files.Keys <= c.shared.files.Keys + {id}
  {
    FireFiles(id, c, e);
  }

  lemma {:induction false} EngineKeepsLedger(y: System, id: string, e: Event)
    requires SystemInv(y) && e != DeactivateCalled && Advance(y.wal, Act(id, e)).Some?
    ensures var w := Advance(y.wal, Act(id, e)).value;
            LedgerInv(y.(wal := w, blemished := y.blemished + Fault(id, e))) && WorldInv(w) && w.mode == y.wal.mode
  {
    AdvanceKeepsInv(y.wal, Act(id, e));
    FirePc(id, Config(y.wal.shared, y.wal.threads[id]), e);
  }

  lemma {:induction false} EngineKeepsService(y: System, id: string, e: Event)
    requires SystemInv(y) && y.wal.mode == Serving && e != DeactivateCalled && Advance(y.wal, Act(id, e)).Some?
    ensures var w := Advance(y.wal, Act(id, e)).value;
            ServiceInv(y.(wal := w, blemished := y.blemished + Fault(id, e)))
  {
    hide Fire, SessionInv;
    var c := Config(y.wal.shared, y.wal.threads[id]);
    FirePc(id, c, e);
    var z := y.(wal := Advance(y.wal, Act(id, e)).value, blemished := y.blemished + Fault(id, e));
    forall other | other in z.wal.threads
      ensures Accounted(z, other)
    {
      assert Accounted(y, other);
    }
    forall sid | sid in z.table
      ensures Charged(z, sid)
    {
      assert Charged(y, sid);
    }
  }

  // ---- Entering and leaving critical sections ----

  /** Calling Deactivate for the transaction of a session. */
  lemma {:induction false} DeactivateStarts(y: System, id: string)
    requires SystemInv(y) && y.wal.mode == Serving && id in y.wal.threads && y.wal.threads[id].pc == Established
    ensures Advance(y.wal, Act(id, DeactivateCalled)).Some?
    ensures var w := Advance(y.wal, Act(id, DeactivateCalled)).value;
            && WorldInv(w) && w.mode == Serving && w.shared == y.wal.shared
            && w.threads == y.wal.threads[id := y.wal.threads[id].(pc := StartRollback)]
  {
    AdvanceKeepsInv(y.wal, Act(id, DeactivateCalled));
  }

  /** A step that concerns one session only: it is enough to look at that
      session and at the transactions it started. */
  lemma {:induction false} OneSession(y: System, z: System, sid: nat)
    requires ServiceInv(y) && sid in z.table && LockInv(z)
    requires z.table.Keys == y.table.Keys + {sid}
    requires forall other :: other in y.table && other != sid ==> z.table[other] == y.table[other]
    requires forall other :: other != sid ==> Releasing(z.lock, other) == Releasing(y.lock, other)
    requires y.wal.threads.Keys <= z.wal.threads.Keys
    requires forall id :: id in y.wal.threads && id in y.starter && y.starter[id] != sid ==>
               z.wal.threads[id] == y.wal.threads[id] && id in z.starter && z.starter[id] == y.starter[id]
    requires SessionInv(z.table[sid], Releasing(z.lock, sid)) && Charged(z, sid)
    requires forall id :: id in z.wal.threads ==> Accounted(z, id) || (id in y.wal.threads && id in y.starter && y.starter[id] != sid)
    requires forall p :: p in z.sessions ==> z.sessions[p] in z.table
    ensures ServiceInv(z)
  {
    forall other | other in z.table && other != sid
      ensures SessionInv(z.table[other], Releasing(z.lock, other)) && Charged(z, other)
    {
      assert SessionInv(y.table[other], Releasing(y.lock, other)) && Charged(y, other);
    }
    forall id | id in z.wal.threads
      ensures Accounted(z, id)
    {
      if id in y.wal.threads {
        assert Accounted(y, id);
      }
    }
  }

  /** The special case in which the engine stands still. */
  lemma {:induction false} OneSessionQuiet(y: System, z: System, sid: nat)
    requires SystemInv(y) && y.wal.mode == Serving && z.wal == y.wal && z.starter == y.starter && z.blemished == y.blemished
    requires sid in z.table && LockInv(z)
    requires z.table.Keys == y.table.Keys + {sid}
    requires forall other :: other in y.table && other != sid ==> z.table[other] == y.table[other]
    requires forall other :: other != sid ==> Releasing(z.lock, other) == Releasing(y.lock, other)
    requires SessionInv(z.table[sid], Releasing(z.lock, sid)) && Charged(z, sid)
    requires sid in y.table && Charge(y.table[sid]).Some? && Charge(z.table[sid]) != Charge(y.table[sid]) ==>
               var id := Charge(y.table[sid]).value; id in y.wal.threads && y.wal.threads[id].pc.Settled?
    requires forall p :: p in z.sessions ==> z.sessions[p] in z.table
    ensures SystemInv(z)
  {
    forall id | id in z.wal.threads
      ensures Accounted(z, id) || (id in y.wal.threads && id in y.starter && y.starter[id] != sid)
    {
      assert Accounted(y, id);
    }
    OneSession(y, z, sid);
  }

  lemma {:induction false} EnterKeepsInv(y: System, sid: nat, lock: Lock, withdrawn: set<string>)
    requires SystemInv(y) && y.wal.mode == Serving && (y.lock == Free || y.lock.ResetLoop?)
    requires EnterRelease(y, sid, lock, withdrawn).Some?
    requires LockInv(y.(lock := lock)) && (lock.Inside? || lock.ResetStop?) && Releasing(lock, sid)
    ensures SystemInv(EnterRelease(y, sid, lock, withdrawn).value)
  {
    if y.table[sid].transaction.Some? {
      EnterWithTransaction(y, sid, lock, withdrawn);
    } else {
      EnterWithout(y, sid, lock);
      if y.table[sid].iface != "" {
        WithdrawalKeepsInv(y.(lock := lock), withdrawn);
      }
    }
  }

  lemma {:induction false} EnterWithTransaction(y: System, sid: nat, lock: Lock, withdrawn: set<string>)
    requires SystemInv(y) && y.wal.mode == Serving && (y.lock == Free || y.lock.ResetLoop?)
    requires sid in y.table && y.table[sid].transaction.Some? && withdrawn == {}
    requires LockInv(y.(lock := lock)) && (lock.Inside? || lock.ResetStop?) && Releasing(lock, sid)
    ensures EnterRelease(y, sid, lock, withdrawn).Some? && SystemInv(EnterRelease(y, sid, lock, withdrawn).value)
  {
    assert Charged(y, sid) && SessionInv(y.table[sid], false);
    var id := y.table[sid].transaction.value;
    DeactivateStarts(y, id);
    var z := EnterShape(y, sid, lock, withdrawn);
    DeactivationKeepsLedger(y, z, id);
    EnterDeactivation(y, z, sid);
  }

  lemma {:induction false} EnterShape(y: System, sid: nat, lock: Lock, withdrawn: set<string>) returns (z: System)
    requires sid in y.table && y.table[sid].transaction.Some? && withdrawn == {}
    requires Advance(y.wal, Act(y.table[sid].transaction.value, DeactivateCalled)).Some?
    ensures EnterRelease(y, sid, lock, withdrawn) == Some(z)
    ensures z == y.(wal := Advance(y.wal, Act(y.table[sid].transaction.value, DeactivateCalled)).value, lock := lock,
                    table := y.table[sid := y.table[sid].(released := y.table[sid].released + 1)])
  {
    z := EnterRelease(y, sid, lock, withdrawn).value;
  }

  lemma {:induction false} DeactivationKeepsLedger(y: System, z: System, id: string)
    requires LedgerInv(y) && id in y.wal.threads && z.wal.shared == y.wal.shared && z.blemished == y.blemished
    requires z.wal.threads == y.wal.threads[id := y.wal.threads[id].(pc := StartRollback)] && z.wal.mode == y.wal.mode
    ensures LedgerInv(z)
  {
  }

  lemma {:induction false} EnterWithout(y: System, sid: nat, lock: Lock)
    requires SystemInv(y) && y.wal.mode == Serving && (y.lock == Free || y.lock.ResetLoop?)
    requires sid in y.table && y.table[sid].transaction.None?
    requires LockInv(y.(lock := lock)) && (lock.Inside? || lock.ResetStop?) && Releasing(lock, sid)
    ensures SystemInv(y.(lock := lock))
  {
    assert Charged(y, sid) && SessionInv(y.table[sid], false);
    OneSessionQuiet(y, y.(lock := lock), sid);
  }

  lemma {:induction false} WithdrawalKeepsInv(y: System, withdrawn: set<string>)
    requires SystemInv(y) && Advance(y.wal, RoutesWithdrawn(withdrawn)).Some?
    ensures SystemInv(y.(wal := Advance(y.wal, RoutesWithdrawn(withdrawn)).value))
  {
    AdvanceKeepsInv(y.wal, RoutesWithdrawn(withdrawn));
    SameThreads(y, y.(wal := Advance(y.wal, RoutesWithdrawn(withdrawn)).value));
  }

  lemma {:induction false} SameThreads(y: System, z: System)
    requires ServiceInv(y) && z == y.(wal := z.wal) && z.wal.threads == y.wal.threads
    ensures ServiceInv(z)
  {
    forall sid | sid in z.table
      ensures Charged(z, sid)
    {
      assert Charged(y, sid);
    }
    forall id | id in z.wal.threads
      ensures Accounted(z, id)
    {
      assert Accounted(y, id);
    }
  }

  lemma {:induction false} EnterDeactivation(y: System, z: System, sid: nat)
    requires ServiceInv(y) && (y.lock == Free || y.lock.ResetLoop?) && Releasing(z.lock, sid) && LockInv(z)
    requires sid in y.table && y.table[sid].transaction.Some?
    requires var id := y.table[sid].transaction.value;
             id in y.wal.threads && z.wal.threads == y.wal.threads[id := y.wal.threads[id].(pc := StartRollback)]
    requires z.table == y.table[sid := y.table[sid].(released := y.table[sid].released + 1)]
    requires z.starter == y.starter && z.sessions == y.sessions
    ensures ServiceInv(z)
  {
    var s := y.table[sid];
    assert SessionInv(s, false) && Charged(y, sid);
    forall id | id in z.wal.threads
      ensures Accounted(z, id) || (id in y.wal.threads && id in y.starter && y.starter[id] != sid)
    {
      assert Accounted(y, id);
    }
    OneSession(y, z, sid);
  }

  /** Leaving a section: the transaction, if there was one, has settled. */
  lemma {:induction false} LeaveKeepsInv(y: System, sid: nat, after: Session, lock: Lock)
    requires SystemInv(y) && y.wal.mode == Serving && Releasing(y.lock, sid) && sid in y.table && ReleaseDone(y, y.table[sid])
    requires lock == Free || (lock.ResetLoop? && lock.todo <= y.table.Keys)
    requires after.transaction == None && SessionInv(after, false) && MonitorAfter(y.table[sid].monitor, after.monitor)
    ensures SystemInv(Put(y, sid, after).(lock := lock))
  {
    assert SessionInv(y.table[sid], true) && Charged(y, sid);
    OneSessionQuiet(y, Put(y, sid, after).(lock := lock), sid);
  }

  predicate MonitorAfter(m: Monitor, after: Monitor) {
    if m.Activating? || m.Returned? then after == m else !after.Activating? && !after.Returned?
  }

  /** What the sections leave is again a proper session. */
  lemma {:induction false} AfterSectionInv(s: Session, section: Section)
    requires SessionInv(s, true)
    requires section == FinishSection ==> s.monitor == Exiting
    requires section == FailSection(true) ==> s.monitor == SetupFailed || s.monitor == DeadlinePassed
    ensures SessionInv(AfterSection(s, section), false)
    ensures AfterSection(s, section).transaction == None && MonitorAfter(s.monitor, AfterSection(s, section).monitor)
  {
    match section
    case StopSection =>
    case FailSection(byMonitor) =>
    case FinishSection =>
  }

  lemma {:induction false} SectionEndsKeepsInv(y: System)
    requires SystemInv(y) && y.wal.mode == Serving && DoSection(y, SectionEnds).Some?
    ensures SystemInv(DoSection(y, SectionEnds).value)
  {
    if y.lock.Inside? {
      InsideEnds(y);
    } else {
      ResetStopEnds(y);
    }
  }

  lemma {:induction false} InsideEnds(y: System)
    requires SystemInv(y) && y.wal.mode == Serving && y.lock.Inside? && ReleaseDone(y, y.table[y.lock.sid])
    ensures SystemInv(Put(y, y.lock.sid, AfterSection(y.table[y.lock.sid], y.lock.section)).(lock := Free))
  {
    var s := y.table[y.lock.sid];
    assert SessionInv(s, true);
    AfterSectionInv(s, y.lock.section);
    LeaveKeepsInv(y, y.lock.sid, AfterSection(s, y.lock.section), Free);
  }

  lemma {:induction false} ResetStopEnds(y: System)
    requires SystemInv(y) && y.wal.mode == Serving && y.lock.ResetStop? && ReleaseDone(y, y.table[y.lock.sid])
    ensures SystemInv(Put(y, y.lock.sid, AfterStop(y.table[y.lock.sid])).(lock := ResetLoop(y.lock.todo)))
  {
    var s := y.table[y.lock.sid];
    assert SessionInv(s, true);
    AfterSectionInv(s, StopSection);
    LeaveKeepsInv(y, y.lock.sid, AfterStop(s), ResetLoop(y.lock.todo));
  }

  // ---- Activation ----

  lemma {:induction false} BeginKeepsInv(y: System, sid: nat, iface: string, id: string, record: Record,
                                         plan: seq<Mutation>, saved: SaveOutcome)
    requires SystemInv(y) && y.wal.mode == Serving && DoEngine(y, ActivateCall(sid, iface, id, record, plan, saved)).Some?
    ensures SystemInv(DoEngine(y, ActivateCall(sid, iface, id, record, plan, saved)).value)
  {
    var z := DoEngine(y, ActivateCall(sid, iface, id, record, plan, saved)).value;
    BeginShape(y, z, sid, iface, id, record, plan, saved);
    BeginKeepsLedger(y, z, id, record, plan, saved);
    BeginKeepsService(y, z, sid, id, iface);
  }

  lemma {:induction false} BeginShape(y: System, z: System, sid: nat, iface: string, id: string, record: Record,
                                      plan: seq<Mutation>, saved: SaveOutcome)
    requires DoEngine(y, ActivateCall(sid, iface, id, record, plan, saved)) == Some(z)
    ensures Advance(y.wal, Begin(id, record, plan, saved)) == Some(z.wal)
    ensures z.blemished == if saved == SavedNotSynced then y.blemished + {id} else y.blemished
    ensures z.lock == y.lock && z.sessions == y.sessions && sid in y.table && y.table[sid].monitor == Watching && id !in y.wal.threads
    ensures (z.wal.threads == y.wal.threads && z.starter == y.starter && z.table == y.table[sid := y.table[sid].(monitor := SetupFailed)])
            || (z.wal.threads.Keys == y.wal.threads.Keys + {id} && z.wal.threads == y.wal.threads[id := z.wal.threads[id]]
                && z.starter == y.starter[id := sid] && z.table == y.table[sid := y.table[sid].(monitor := Activating(id, iface))])
  {
  }

  lemma {:induction false} BeginKeepsLedger(y: System, z: System, id: string, record: Record, plan: seq<Mutation>, saved: SaveOutcome)
    requires WorldInv(y.wal) && LedgerInv(y) && y.wal.mode == Serving && Advance(y.wal, Begin(id, record, plan, saved)) == Some(z.wal)
    requires z.blemished == if saved == SavedNotSynced then y.blemished + {id} else y.blemished
    ensures WorldInv(z.wal) && LedgerInv(z) && z.wal.mode == Serving
  {
    AdvanceKeepsInv(y.wal, Begin(id, record, plan, saved));
  }

  lemma {:induction false} BeginSession(y: System, z: System, sid: nat, id: string, iface: string)
    requires ServiceInv(y) && sid in y.table && y.table[sid].monitor == Watching && id !in y.wal.threads
    requires z.lock == y.lock && z.sessions == y.sessions
    requires (z.wal.threads == y.wal.threads && z.starter == y.starter && z.table == y.table[sid := y.table[sid].(monitor := SetupFailed)])
             || (z.wal.threads.Keys == y.wal.threads.Keys + {id} && z.wal.threads == y.wal.threads[id := z.wal.threads[id]]
                 && z.starter == y.starter[id := sid] && z.table == y.table[sid := y.table[sid].(monitor := Activating(id, iface))])
    ensures SessionInv(z.table[sid], Releasing(z.lock, sid)) && Charged(z, sid) && LockInv(z)
    ensures Charge(y.table[sid]) == None
  {
    assert SessionInv(y.table[sid], Releasing(y.lock, sid)) && Charged(y, sid);
  }

  lemma {:induction false} BeginKeepsService(y: System, z: System, sid: nat, id: string, iface: string)
    requires ServiceInv(y) && sid in y.table && y.table[sid].monitor == Watching && id !in y.wal.threads
    requires z.lock == y.lock && z.sessions == y.sessions
    requires (z.wal.threads == y.wal.threads && z.starter == y.starter && z.table == y.table[sid := y.table[sid].(monitor := SetupFailed)])
             || (z.wal.threads.Keys == y.wal.threads.Keys + {id} && z.wal.threads == y.wal.threads[id := z.wal.threads[id]]
                 && z.starter == y.starter[id := sid] && z.table == y.table[sid := y.table[sid].(monitor := Activating(id, iface))])
    ensures ServiceInv(z)
  {
    hide SessionInv, StageOk, LockInv;
    BeginSession(y, z, sid, id, iface);
    forall other | other in z.wal.threads
      ensures Accounted(z, other) || (other in y.wal.threads && other in y.starter && y.starter[other] != sid)
    {
      if other in y.wal.threads { assert Accounted(y, other); }
    }
    OneSession(y, z, sid);
  }

  lemma {:induction false} SectionStepKeepsInv(y: System, a: Action)
    requires SystemInv(y) && y.wal.mode == Serving && DoSection(y, a).Some?
    ensures SystemInv(DoSection(y, a).value)
  {
    hide SessionInv, WorldInv, LedgerInv, Charged;
    match a
    case StopCall(profile, withdrawn) => EnterKeepsInv(y, y.sessions[profile], Inside(StopSection, y.sessions[profile]), withdrawn);
    case ResetCall => LockMoves(y, DoSection(y, a).value);
    case ResetNext(sid, withdrawn) => EnterKeepsInv(y, sid, ResetStop(sid, y.lock.todo - {sid}), withdrawn);
    case ResetDone => LockMoves(y, DoSection(y, a).value);
    case FailCall(sid, byMonitor, withdrawn) => EnterKeepsInv(y, sid, Inside(FailSection(byMonitor), sid), withdrawn);
    case FinishCall(sid, withdrawn) => EnterKeepsInv(y, sid, Inside(FinishSection, sid), withdrawn);
    case SectionEnds => SectionEndsKeepsInv(y);
    case _ =>
  }

  lemma {:induction false} StartKeepsInv(y: System, a: Action)
    requires SystemInv(y) && y.wal.mode == Serving && a.StartSession? && DoEngine(y, a).Some?
    ensures SystemInv(DoEngine(y, a).value)
  {
    hide WorldInv, StageOk;
    OneSessionQuiet(y, DoEngine(y, a).value, a.sid);
  }

  lemma {:induction false} EngineStepKeepsInv(y: System, a: Action)
    requires SystemInv(y) && y.wal.mode == Serving && DoEngine(y, a).Some?
    ensures SystemInv(DoEngine(y, a).value)
  {
    hide Fire, WorldInv, SessionInv;
    match a
    case StartSession(_, _, _, _, _, _) => StartKeepsInv(y, a);
    case ActivateCall(sid, iface, id, record, plan, saved) => BeginKeepsInv(y, sid, iface, id, record, plan, saved);
    case Engine(id, e) =>
      EngineKeepsLedger(y, id, e);
      EngineKeepsService(y, id, e);
    case _ =>
  }

  lemma {:induction false} DeathKeepsInv(y: System)
    requires SystemInv(y)
    ensures SystemInv(Dead(y))
  {
    AdvanceKeepsInv(y.wal, Crash);
  }

  lemma {:induction false} ServingKeepsInv(y: System, a: Action)
    requires SystemInv(y) && y.wal.mode == Serving && a != HelperDies && Do(y, a).Some?
    ensures SystemInv(Do(y, a).value)
  {
    if SessionStep(a) {
      SessionStepKeepsInv(y, a);
    } else if SectionStep(a) {
      SectionStepKeepsInv(y, a);
    } else {
      EngineStepKeepsInv(y, a);
    }
  }

  lemma {:induction false} LockMoves(y: System, z: System)
    requires SystemInv(y) && y.wal.mode == Serving
    requires (y.lock == Free && z.lock.ResetLoop? && z.lock.todo <= y.table.Keys) || (y.lock.ResetLoop? && z.lock == Free)
    requires z == y.(lock := z.lock, sessions := z.sessions) && (z.sessions == y.sessions || z.sessions == map[])
    ensures SystemInv(z)
  {
    forall sid | sid in z.table
      ensures SessionInv(z.table[sid], Releasing(z.lock, sid)) && Charged(z, sid)
    {
      assert SessionInv(y.table[sid], Releasing(y.lock, sid)) && Charged(y, sid);
    }
    forall id | id in z.wal.threads
      ensures Accounted(z, id)
    {
      assert Accounted(y, id);
    }
  }

  /** A change of one session that leaves the engine and the lock alone. */
  predicate LocallyFine(y: System, sid: nat, after: Session)
    requires sid in y.table
  {
    && SessionInv(after, Releasing(y.lock, sid)) && Charged(Put(y, sid, after), sid) && LockInv(Put(y, sid, after))
    && (Charge(y.table[sid]).Some? && Charge(after) != Charge(y.table[sid]) ==>
          var id := Charge(y.table[sid]).value; id in y.wal.threads && y.wal.threads[id].pc.Settled?)
  }

  lemma {:induction false} LocalStep(y: System, sid: nat, after: Session)
    requires SystemInv(y) && y.wal.mode == Serving && sid in y.table && LocallyFine(y, sid, after)
    ensures SystemInv(Put(y, sid, after))
  {
    OneSessionQuiet(y, Put(y, sid, after), sid);
  }

  lemma {:induction false} SessionStepKeepsInv(y: System, a: Action)
    requires SystemInv(y) && y.wal.mode == Serving && DoSession(y, a).Some?
    ensures SystemInv(DoSession(y, a).value)
  {
    var sid := if a.SendOtp? then y.sessions[a.profile] else a.sid;
    assert SessionInv(y.table[sid], Releasing(y.lock, sid)) && Charged(y, sid);
    var after := SessionStepLocal(y, a, sid);
    LocalStep(y, sid, after);
  }

  lemma {:induction false} SessionStepLocal(y: System, a: Action, sid: nat) returns (after: Session)
    requires DoSession(y, a).Some? && LockInv(y)
    requires sid == if a.SendOtp? then y.sessions[a.profile] else a.sid
    requires sid in y.table && SessionInv(y.table[sid], Releasing(y.lock, sid)) && Charged(y, sid)
    ensures DoSession(y, a) == Some(Put(y, sid, after)) && LocallyFine(y, sid, after)
  {
    hide SessionInv, LockInv, Charged;
    match a
    case ActivateReturns(_) =>
      hide LocallyFine;
      after := DoSession(y, a).value.table[sid];
      ActivateReturned(y, sid);
    case AssignTransaction(_) =>
      hide LocallyFine;
      after := DoSession(y, a).value.table[sid];
      AssignmentMade(y, sid);
    case MarkConnected(_) =>
      hide LocallyFine;
      after := DoSession(y, a).value.table[sid];
      AssignmentMade(y, sid);
    case _ =>
      after := PlainStepLocal(y, a, sid);
  }

  /** The steps that leave the transaction of the session alone. */
  lemma {:induction false} PlainStepLocal(y: System, a: Action, sid: nat) returns (after: Session)
    requires DoSession(y, a).Some? && LockInv(y)
    requires !a.ActivateReturns? && !a.AssignTransaction? && !a.MarkConnected?
    requires sid == if a.SendOtp? then y.sessions[a.profile] else a.sid
    requires sid in y.table && SessionInv(y.table[sid], Releasing(y.lock, sid)) && Charged(y, sid)
    ensures DoSession(y, a) == Some(Put(y, sid, after)) && LocallyFine(y, sid, after)
  {
    hide Charged, LockInv, LocallyFine;
    after := DoSession(y, a).value.table[sid];
    assert SessionInv(after, Releasing(y.lock, sid));
    QuietChange(y, sid, after);
  }

  /** A change that takes the monitor at most out of one of its waits. */
  lemma {:induction false} QuietChange(y: System, sid: nat, after: Session)
    requires LockInv(y) && sid in y.table && Charged(y, sid) && SessionInv(after, Releasing(y.lock, sid))
    requires var s := y.table[sid];
             && after.protocol == s.protocol && Charge(after) == Charge(s)
             && (after.monitor == s.monitor
                 || ((s.monitor == Watching || s.monitor == AwaitExit) && !after.monitor.Activating? && !after.monitor.Returned?))
    ensures LocallyFine(y, sid, after)
  {
    hide SessionInv;
  }

  lemma {:induction false} ActivateReturned(y: System, sid: nat)
    requires LockInv(y) && sid in y.table && y.table[sid].monitor.Activating?
    requires SessionInv(y.table[sid], Releasing(y.lock, sid)) && Charged(y, sid)
    ensures var s, pc := y.table[sid], y.wal.threads[y.table[sid].monitor.txn].pc;
            && (pc == Established ==>
                  LocallyFine(y, sid, s.(monitor := Returned(s.monitor.txn, s.monitor.iface), activated := s.activated + 1)))
            && (pc.Settled? ==> LocallyFine(y, sid, s.(monitor := SetupFailed)))
  {
  }

  lemma {:induction false} AssignmentMade(y: System, sid: nat)
    requires y.lock == Free && sid in y.table && SessionInv(y.table[sid], false) && Charged(y, sid)
    ensures var s := y.table[sid];
            && (s.monitor.Returned? ==>
                  LocallyFine(y, sid, s.(transaction := Some(s.monitor.txn), monitor := Assigned(s.monitor.iface))))
            && (s.monitor.Assigned? ==>
                  LocallyFine(y, sid, s.(iface := s.monitor.iface, state := Connected, monitor := AwaitExit)))
  {
  }

  lemma {:induction false} DownKeepsInv(y: System, a: Action)
    requires SystemInv(y) && y.wal.mode != Serving && a != HelperDies && Do(y, a).Some?
    ensures SystemInv(Do(y, a).value)
  {
    hide Fire, WorldInv;
    match a
    case RecoveryStarts(listed) => AdvanceKeepsInv(y.wal, StartRecovery(listed));
    case Engine(id, e) => EngineKeepsLedger(y, id, e);
    case RecoverySucceeds =>
      AdvanceKeepsInv(y.wal, FinishRecovery);
      FinishedRecoveryClean(y.wal);
    case _ =>
  }

  lemma {:induction false} StartsProperly(y: System)
    requires Start(y)
    ensures SystemInv(y)
  {
  }

  lemma {:induction false} PlayKeepsInv(y: System, actions: seq<Action>)
    requires SystemInv(y) && Play(y, actions).Some?
    ensures SystemInv(Play(y, actions).value)
    decreases |actions|
  {
    if actions != [] {
      PlayKeepsInv(y, actions[..|actions| - 1]);
      var z := Play(y, actions[..|actions| - 1]).value;
      if actions[|actions| - 1] == HelperDies {
        DeathKeepsInv(z);
      } else if z.wal.mode == Serving {
        ServingKeepsInv(z, actions[|actions| - 1]);
      } else {
        DownKeepsInv(z, actions[|actions| - 1]);
      }
    }
  }

  // ---- The results ----

  /** For every session, in every run: at most one Activate succeeds, its
      transaction is deactivated at most once, finish runs at most once and only
      after the process exit; once finish has run the transaction, if there was
      one, has been deactivated exactly once. */
  lemma {:induction false} ExactlyOnceRelease(y: System, actions: seq<Action>, sid: nat)
    requires Start(y) && Play(y, actions).Some? && sid in Play(y, actions).value.table
    ensures var s := Play(y, actions).value.table[sid];
            && s.activated <= 1 && s.released <= s.activated && s.finishes <= 1
            && (s.finishes == 1 <==> s.monitor == Finished)
            && (s.monitor == Finished ==> s.exited && s.transaction == None && s.released == s.activated)
            && (s.transaction.Some? ==> s.activated == 1)
  {
    StartsProperly(y);
    PlayKeepsInv(y, actions);
    var z := Play(y, actions).value;
    assert SessionInv(z.table[sid], Releasing(z.lock, sid));
  }

  /** DeleteRoutes outside the engine is only ever called for a session whose
      transaction was already deactivated: it is never what releases it. */
  lemma {:induction false} DirectDeletionIsRedundant(y: System, actions: seq<Action>, sid: nat)
    requires Start(y) && Play(y, actions).Some? && sid in Play(y, actions).value.table
    ensures var s := Play(y, actions).value.table[sid];
            s.transaction == None && s.iface != "" ==> s.activated == 1 && s.released == 1
  {
    StartsProperly(y);
    PlayKeepsInv(y, actions);
    var z := Play(y, actions).value;
    assert SessionInv(z.table[sid], Releasing(z.lock, sid));
  }

  /** Two layers together: when every session whose monitor was started has
      finished, each journal file and each resource still in place belongs to a
      transaction with a failed call; without failed calls there is neither. */
  lemma {:induction false} Conservation(y: System, actions: seq<Action>)
    requires Start(y) && Play(y, actions).Some?
    requires var z := Play(y, actions).value;
             z.wal.mode == Serving
             && forall sid :: sid in z.table ==> z.table[sid].monitor == Finished || z.table[sid].monitor == Unstarted
    ensures var z := Play(y, actions).value;
            && z.wal.shared.files.Keys <= z.blemished
            && (forall r :: r in z.wal.shared.held ==> z.wal.shared.held[r] in z.blemished)
            && (z.blemished == {} ==> z.wal.shared.files == map[] && z.wal.shared.held == map[])
  {
    StartsProperly(y);
    PlayKeepsInv(y, actions);
    var z := Play(y, actions).value;
    forall id | id in z.wal.shared.files
      ensures id in z.blemished
    {
      if id in z.wal.threads {
        assert Accounted(z, id);
        if z.starter[id] in z.table {
          assert SessionInv(z.table[z.starter[id]], Releasing(z.lock, z.starter[id]));
        }
        assert ThreadInv(z.wal.shared, id, z.wal.threads[id]);
      }
    }
  }

  /** Finishing is final: no step takes a finished session back. */
  lemma {:induction false} FinishedIsFinal(y: System, a: Action, sid: nat)
    requires SystemInv(y) && Do(y, a).Some? && sid in y.table && y.table[sid].monitor == Finished && a != HelperDies
    ensures sid in Do(y, a).value.table && Do(y, a).value.table[sid].monitor == Finished
            && Do(y, a).value.table[sid].protocol == y.table[sid].protocol
  {
    if SessionStep(a) {
      FinishedStaysSession(y, a, sid);
    } else if SectionStep(a) {
      FinishedStaysSection(y, a, sid);
    }
  }

  /** A FortiGate SSL or OpenConnect session whose finish has run holds nothing
      and is stopped or failed from then on, whatever Stop, Reset, SendOTP or
      any other step follows while the helper lives. */
  lemma {:induction false} EndedForGood(y: System, before: seq<Action>, z: System, later: seq<Action>, end: System, sid: nat)
    requires Start(y) && Play(y, before) == Some(z) && Play(z, later) == Some(end) && HelperDies !in later
    requires sid in z.table && z.table[sid].monitor == Finished && z.table[sid].protocol != OpenVPN
    ensures sid in end.table && end.table[sid].monitor == Finished && Ended(end.table[sid])
  {
    StartsProperly(y);
    PlayKeepsInv(y, before);
    FinishedPersists(z, later, end, sid);
    assert SessionInv(end.table[sid], Releasing(end.lock, sid));
  }

  lemma {:induction false} FinishedPersists(z: System, later: seq<Action>, end: System, sid: nat)
    requires SystemInv(z) && Play(z, later) == Some(end) && HelperDies !in later
    requires sid in z.table && z.table[sid].monitor == Finished
    ensures SystemInv(end) && end.wal.mode == Serving
    ensures sid in end.table && end.table[sid].monitor == Finished && end.table[sid].protocol == z.table[sid].protocol
    decreases |later|
  {
    PlayKeepsInv(z, later);
    if later != [] {
      var u := Play(z, later[..|later| - 1]).value;
      FinishedPersists(z, later[..|later| - 1], u, sid);
      FinishedIsFinal(u, later[|later| - 1], sid);
    }
  }

  /** The two steps of a critical section, with any steps of the engine in
      between, are the section as the service performs it. */
  lemma {:induction false} SectionComposes(y: System, sid: nat, section: Section, withdrawn: set<string>, z: System)
    requires EnterRelease(y, sid, Inside(section, sid), withdrawn).Some?
    requires var e := EnterRelease(y, sid, Inside(section, sid), withdrawn).value; z.table == e.table && z.lock == e.lock
    requires DoSection(z, SectionEnds).Some?
    ensures DoSection(z, SectionEnds).value.table == y.table[sid := WholeSection(y.table[sid], section)]
    ensures DoSection(z, SectionEnds).value.lock == Free
  {
    EnterTable(y, sid, Inside(section, sid), withdrawn);
    SectionTable(z, sid, section);
  }

  lemma {:induction false} EnterTable(y: System, sid: nat, lock: Lock, withdrawn: set<string>)
    requires EnterRelease(y, sid, lock, withdrawn).Some?
    ensures var e, s := EnterRelease(y, sid, lock, withdrawn).value, y.table[sid];
            && e.lock == lock
            && e.table == y.table[sid := s.(released := s.released + if s.transaction.Some? then 1 else 0)]
  {
    assert y.table == y.table[sid := y.table[sid]];
  }

  lemma {:induction false} SectionTable(z: System, sid: nat, section: Section)
    requires z.lock == Inside(section, sid) && DoSection(z, SectionEnds).Some?
    ensures sid in z.table && DoSection(z, SectionEnds).value.lock == Free
    ensures DoSection(z, SectionEnds).value.table == z.table[sid := AfterSection(z.table[sid], section)]
  {
  }

  lemma {:induction false} FinishedStaysSession(y: System, a: Action, sid: nat)
    requires DoSession(y, a).Some? && sid in y.table && y.table[sid].monitor == Finished
    ensures var z := DoSession(y, a).value;
            sid in z.table && z.table[sid].monitor == Finished && z.table[sid].protocol == y.table[sid].protocol
  {
  }

  lemma {:induction false} FinishedStaysSection(y: System, a: Action, sid: nat)
    requires LockInv(y) && DoSection(y, a).Some? && sid in y.table && y.table[sid].monitor == Finished
    ensures var z := DoSection(y, a).value;
            sid in z.table && z.table[sid].monitor == Finished && z.table[sid].protocol == y.table[sid].protocol
  {
    if a != SectionEnds {
      EnteringKeepsMonitors(y, a);
    }
  }

  /** Only the end of a section changes more of a session than the release it
      counts. */
  lemma {:induction false} EnteringKeepsMonitors(y: System, a: Action)
    requires DoSection(y, a).Some? && a != SectionEnds
    ensures var z := DoSection(y, a).value;
            z.table.Keys >= y.table.Keys && forall sid :: sid in y.table ==> z.table[sid] == y.table[sid].(released := z.table[sid].released)
  {
    hide EnterRelease;
    match a
    case StopCall(profile, withdrawn) => ReleaseOnlyCounts(y, y.sessions[profile], Inside(StopSection, y.sessions[profile]), withdrawn);
    case ResetNext(sid, withdrawn) => ReleaseOnlyCounts(y, sid, ResetStop(sid, y.lock.todo - {sid}), withdrawn);
    case FailCall(sid, byMonitor, withdrawn) => ReleaseOnlyCounts(y, sid, Inside(FailSection(byMonitor), sid), withdrawn);
    case FinishCall(sid, withdrawn) => ReleaseOnlyCounts(y, sid, Inside(FinishSection, sid), withdrawn);
    case _ =>
  }

  lemma {:induction false} ReleaseOnlyCounts(y: System, sid: nat, lock: Lock, withdrawn: set<string>)
    requires EnterRelease(y, sid, lock, withdrawn).Some?
    ensures var z := EnterRelease(y, sid, lock, withdrawn).value;
            z.table.Keys == y.table.Keys && forall k :: k in y.table ==> z.table[k] == y.table[k].(released := z.table[k].released)
  {
    hide Advance;
    var s, z := y.table[sid], EnterRelease(y, sid, lock, withdrawn).value;
    assert z.table == if s.transaction.Some? then y.table[sid := s.(released := s.released + 1)] else y.table;
    forall k | k in y.table
      ensures z.table[k] == y.table[k].(released := z.table[k].released)
    {
      if k == sid {
        assert z.table[k] == if s.transaction.Some? then s.(released := s.released + 1) else s;
      }
    }
  }
}
