/** What it means that a session is shown as connected (vpntoris-tray/internal/
    nativehelper/service.go, applyNetwork and monitor). */
module SessionConnected {
  import opened Wrappers
  import opened EngineTypes
  import opened WalMachine
  import opened WalSafety
  import opened WalRuns
  import opened WalSharing
  import opened SessionMachine
  import opened SessionSafety
  import opened SessionRuns
  import opened SessionProgress

  /** Only the monitor marks a session as connected, with its interface. */
  predicate Marked(s: Session) {
    && (s.monitor.Activating? || s.monitor.Returned? || s.monitor.Assigned? ==> s.monitor.iface != "")
    && (s.state == Connected ==> (s.monitor == AwaitExit || s.monitor == Exiting) && s.iface != "")
  }

  ghost predicate AllMarked(y: System) {
    forall sid :: sid in y.table ==> Marked(y.table[sid])
  }

  lemma {:induction false} SessionKeepsMarked(y: System, a: Action)
    requires AllMarked(y) && DoSession(y, a).Some?
    ensures AllMarked(DoSession(y, a).value)
  {
    if a.ActivateReturns? || a.AssignTransaction? || a.MarkConnected? {
      SetupKeepsMarked(y, a);
    } else {
      OthersKeepMarked(y, a);
    }
  }

  lemma {:induction false} SetupKeepsMarked(y: System, a: Action)
    requires a.ActivateReturns? || a.AssignTransaction? || a.MarkConnected?
    requires AllMarked(y) && DoSession(y, a).Some?
    ensures AllMarked(DoSession(y, a).value)
  {
    assert Marked(y.table[a.sid]);
    hide AllMarked;
    var after := DoSession(y, a).value.table[a.sid];
    assert Marked(after);
    PutKeepsMarked(y, a.sid, after);
  }

  lemma {:induction false} PutKeepsMarked(y: System, sid: nat, s: Session)
    requires AllMarked(y) && Marked(s)
    ensures AllMarked(Put(y, sid, s))
  {
    hide Marked;
  }

  lemma {:induction false} OthersKeepMarked(y: System, a: Action)
    requires !a.ActivateReturns? && !a.AssignTransaction? && !a.MarkConnected?
    requires AllMarked(y) && DoSession(y, a).Some?
    ensures AllMarked(DoSession(y, a).value)
  {
  }

  lemma {:induction false} EnterKeepsMarked(y: System, sid: nat, lock: Lock, withdrawn: set<string>)
    requires AllMarked(y) && EnterRelease(y, sid, lock, withdrawn).Some?
    ensures AllMarked(EnterRelease(y, sid, lock, withdrawn).value)
  {
  }

  lemma {:induction false} SectionKeepsMarked(y: System, a: Action)
    requires AllMarked(y) && DoSection(y, a).Some?
    ensures AllMarked(DoSection(y, a).value)
  {
    match a
    case StopCall(profile, withdrawn) => EnterKeepsMarked(y, y.sessions[profile], Inside(StopSection, y.sessions[profile]), withdrawn);
    case ResetNext(sid, withdrawn) => EnterKeepsMarked(y, sid, ResetStop(sid, y.lock.todo - {sid}), withdrawn);
    case FailCall(sid, byMonitor, withdrawn) => EnterKeepsMarked(y, sid, Inside(FailSection(byMonitor), sid), withdrawn);
    case FinishCall(sid, withdrawn) => EnterKeepsMarked(y, sid, Inside(FinishSection, sid), withdrawn);
    case SectionEnds => EndKeepsMarked(y);
    case _ =>
  }

  lemma {:induction false} EndKeepsMarked(y: System)
    requires AllMarked(y) && DoSection(y, SectionEnds).Some?
    ensures AllMarked(DoSection(y, SectionEnds).value)
  {
    var z := DoSection(y, SectionEnds).value;
    match y.lock
    case Inside(section, sid) => SectionMarked(y.table[sid], section);
    case _ =>
  }

  lemma {:induction false} SectionMarked(s: Session, section: Section)
    requires Marked(s)
    ensures Marked(AfterSection(s, section)) && Marked(AfterStop(s))
  {
  }

  lemma {:induction false} EngineKeepsMarked(y: System, a: Action)
    requires AllMarked(y) && DoEngine(y, a).Some?
    ensures AllMarked(DoEngine(y, a).value)
  {
  }

  lemma {:induction false} DownKeepsMarked(y: System, a: Action)
    requires AllMarked(y) && DoDown(y, a).Some?
    ensures AllMarked(DoDown(y, a).value)
  {
  }

  lemma {:induction false} PlayKeepsMarked(y: System, actions: seq<Action>)
    requires AllMarked(y) && Play(y, actions).Some?
    ensures AllMarked(Play(y, actions).value)
    decreases |actions|
  {
    if actions != [] {
      var init, a := actions[..|actions| - 1], actions[|actions| - 1];
      PlayKeepsMarked(y, init);
      var z := Play(y, init).value;
      if a == HelperDies {
      } else if z.wal.mode != Serving {
        DownKeepsMarked(z, a);
      } else if SessionStep(a) {
        SessionKeepsMarked(z, a);
      } else if SectionStep(a) {
        SectionKeepsMarked(z, a);
      } else {
        EngineKeepsMarked(z, a);
      }
    }
  }

  /** The transaction is established, and its record says so. */
  ghost predicate InForce(y: System, id: string) {
    && id in y.wal.threads && y.wal.threads[id].pc == Established
    && id in y.wal.shared.files && y.wal.shared.files[id].state == Active && AllApplied(y.wal.shared.files[id].mutations)
  }

  /** The session began the transaction. */
  predicate Began(y: System, sid: nat, id: string) {
    id in y.wal.threads && id in y.starter && y.starter[id] == sid
  }

  /** A session that is shown as connected had its network established once.
      Of the transactions it began, that one is in force exactly while the
      session still has it and no section is releasing it. */
  lemma {:induction false} ConnectedMeans(y: System, actions: seq<Action>, sid: nat, id: string)
    requires Start(y) && Play(y, actions).Some? && sid in Play(y, actions).value.table
    requires Play(y, actions).value.table[sid].state == Connected
    ensures var z := Play(y, actions).value; var s := z.table[sid];
            && s.activated == 1 && s.iface != "" && s.released <= 1
            && (s.released == 0 <==> s.transaction.Some? && !Releasing(z.lock, sid))
            && (s.transaction == Some(id) ==> Began(z, sid, id))
            && (Began(z, sid, id) ==> (InForce(z, id) <==> s.transaction == Some(id) && !Releasing(z.lock, sid)))
  {
    StartsProperly(y);
    PlayKeepsInv(y, actions);
    PlayKeepsMarked(y, actions);
    var z := Play(y, actions).value;
    var s := z.table[sid];
    assert SessionInv(s, Releasing(z.lock, sid)) && Charged(z, sid) && Marked(s);
    if Began(z, sid, id) {
      assert Accounted(z, id) && ThreadInv(z.wal.shared, id, z.wal.threads[id]);
    }
  }

  /** At no point of the run had another transaction a live mutation for `r`
      while `id` had one. */
  ghost predicate NobodyContests(u: System, later: seq<Action>, id: string, r: string) {
    forall k :: 0 <= k < |later| && Play(u, later[..k]).Some? ==> Uncontested(Play(u, later[..k]).value.wal, id, r)
  }

  lemma {:induction false} PlayKeepsPlace(u: System, later: seq<Action>, id: string, r: string)
    requires SystemInv(u) && KeepsPlace(u.wal, id, r) && Play(u, later).Some?
    requires NobodyContests(u, later, id, r) && Untouched(later, r)
    ensures KeepsPlace(Play(u, later).value.wal, id, r)
    decreases |later|
  {
    hide Do, KeepsPlace, Uncontested, SystemInv;
    if later != [] {
      var n := |later| - 1;
      assert forall k :: 0 <= k < n ==> later[..n][k] == later[k] && later[..n][..k] == later[..k];
      PlayKeepsPlace(u, later[..n], id, r);
      PlayKeepsInv(u, later[..n]);
      var m := Play(u, later[..n]).value;
      ActionKeepsPlace(m, later[n], id, r);
    }
  }

  lemma {:induction false} ActionKeepsPlace(m: System, a: Action, id: string, r: string)
    requires SystemInv(m) && KeepsPlace(m.wal, id, r) && Uncontested(m.wal, id, r)
    requires Do(m, a).Some? && !Withdraws(a, r)
    ensures KeepsPlace(Do(m, a).value.wal, id, r)
  {
    hide Do, KeepsPlace, Uncontested, Advance, WorldInv;
    ActionMoves(m, a);
    if EngineStep(m, a).Some? {
      StepKeepsPlace(m.wal, EngineStep(m, a).value, id, r);
    }
  }

  /** What is really in place.  A resource of the plan that was not deleted
      outside the engine since the transaction began and that no other
      transaction had live at the same time is, unless the release met an error,
      in place on behalf of a connected session exactly while the session has
      its transaction. */
  lemma {:induction false} ConnectedInPlace(y: System, before: seq<Action>, u: System, later: seq<Action>, z: System,
                                            sid: nat, id: string, r: string)
    requires Start(y) && Play(y, before) == Some(u) && id !in u.wal.threads
    requires Play(u, later) == Some(z) && Untouched(later, r) && NobodyContests(u, later, id, r)
    requires sid in z.table && z.table[sid].state == Connected && !Releasing(z.lock, sid)
    requires Began(z, sid, id) && id !in z.blemished
    requires r in Footprint(z.wal.shared.tracked, z.wal.threads[id].plan)
    ensures HeldFor(z.wal.shared, id, r) <==> z.table[sid].transaction == Some(id)
  {
    var s := z.table[sid];
    StartsProperly(y);
    PlayKeepsInv(y, before);
    PlayKeepsInv(u, later);
    PlayKeepsMarked(y, before);
    PlayKeepsMarked(u, later);
    assert SessionInv(s, Releasing(z.lock, sid)) && Charged(z, sid) && Marked(s) && Accounted(z, id);
    if s.transaction == Some(id) {
      PlayKeepsPlace(u, later, id, r);
      var j := PlanApplied(z.wal, id, r);
    } else {
      SettledGone(z, id, r);
    }
  }

  /** A condition that looks at the two ends only, for connecting again: every
      other transaction of this life of the helper that names the resource was
      there before and had undone what it did about it. */
  lemma {:induction false} ReconnectedInPlace(y: System, before: seq<Action>, u: System, later: seq<Action>, z: System,
                                              sid: nat, id: string, r: string)
    requires Start(y) && Play(y, before) == Some(u) && id !in u.wal.threads && u.wal.mode == Serving
    requires Play(u, later) == Some(z) && Untouched(later, r) && HelperDies !in later && OnlySuccessor(u.wal, z.wal, id, r)
    requires sid in z.table && z.table[sid].state == Connected && !Releasing(z.lock, sid)
    requires Began(z, sid, id) && id !in z.blemished
    requires r in Footprint(z.wal.shared.tracked, z.wal.threads[id].plan)
    ensures HeldFor(z.wal.shared, id, r) <==> z.table[sid].transaction == Some(id)
  {
    forall k | 0 <= k < |later| && Play(u, later[..k]).Some?
      ensures Uncontested(Play(u, later[..k]).value.wal, id, r)
    {
      var x := Play(u, later[..k]).value;
      assert later == later[..k] + later[k..];
      PlayAppend(u, later[..k], x, later[k..]);
      PlayIsRun(u, later[..k]);
      PlayIsRun(x, later[k..]);
      NoCrash(u, later[..k]);
      NoCrash(x, later[k..]);
      SuccessorUncontested(u.wal, EngineSteps(u, later[..k]), x.wal, EngineSteps(x, later[k..]), z.wal, id, r);
    }
    ConnectedInPlace(y, before, u, later, z, sid, id, r);
  }

  lemma {:induction false} NoCrash(y: System, actions: seq<Action>)
    requires HelperDies !in actions
    ensures Crash !in EngineSteps(y, actions)
    decreases |actions|
  {
    hide Play;
    if actions != [] {
      NoCrash(y, actions[..|actions| - 1]);
      assert actions[|actions| - 1] in actions;
    }
  }

  /** After a rollback without a failed call nothing is in place any more. */
  lemma {:induction false} SettledGone(z: System, id: string, r: string)
    requires SystemInv(z) && id in z.wal.threads && z.wal.threads[id].pc.Settled? && id !in z.blemished
    ensures !HeldFor(z.wal.shared, id, r)
  {
    assert ThreadInv(z.wal.shared, id, z.wal.threads[id]);
  }
}
