/** Progress of the service: nothing ever waits for ever.  Wherever the helper
    stands while it serves, an open critical section can be left, the monitor of
    a session whose process has exited can run finish, and the helper can wind
    down completely (vpntoris-tray/internal/nativehelper/service.go). */
module SessionProgress {
  import opened Wrappers
  import opened EngineTypes
  import opened WalMachine
  import opened WalSafety
  import opened WalRuns
  import opened WalProgress
  import opened SessionMachine
  import opened SessionSafety

  // ---- Runs put together ----

  function EngineActions(id: string, es: seq<Event>): seq<Action> {
    seq(|es|, k requires 0 <= k < |es| => Engine(id, es[k]))
  }

  lemma {:induction false} PlayOne(y: System, before: seq<Action>, z: System, a: Action)
    requires Play(y, before) == Some(z)
    ensures Play(y, before + [a]) == Do(z, a)
  {
    assert (before + [a])[..|before|] == before;
  }

  lemma {:induction false} PlayAppend(y: System, before: seq<Action>, z: System, later: seq<Action>)
    requires Play(y, before) == Some(z)
    ensures Play(y, before + later) == Play(z, later)
    decreases |later|
  {
    hide Do;
    if later == [] {
      assert before + later == before;
    } else {
      var init, a := later[..|later| - 1], later[|later| - 1];
      PlayAppend(y, before, z, init);
      assert later == init + [a] && before + later == before + init + [a];
      match Play(z, init) {
        case Some(u) =>
          PlayOne(y, before + init, u, a);
          PlayOne(z, init, u, a);
        case None =>
          PlayNone(y, before + init, a);
          PlayNone(z, init, a);
      }
    }
  }

  lemma {:induction false} PlayNone(y: System, before: seq<Action>, a: Action)
    requires Play(y, before) == None
    ensures Play(y, before + [a]) == None
  {
    assert (before + [a])[..|before|] == before;
  }

  /** What the service sees of a run of one transaction. */
  function AfterEngine(y: System, id: string, d: Config): System {
    y.(wal := World(Serving, d.shared, y.wal.threads[id := d.thread]))
  }

  lemma {:induction false} PlayEngine(y: System, id: string, es: seq<Event>, d: Config)
    requires y.wal.mode == Serving && id in y.wal.threads && Clean(es)
    requires Exec(id, Config(y.wal.shared, y.wal.threads[id]), es) == Some(d)
    ensures Play(y, EngineActions(id, es)) == Some(AfterEngine(y, id, d))
    decreases |es|
  {
    if es == [] {
      assert y.wal.threads[id := y.wal.threads[id]] == y.wal.threads;
    } else {
      var n := |es| - 1;
      var u := Exec(id, Config(y.wal.shared, y.wal.threads[id]), es[..n]).value;
      PlayEngine(y, id, es[..n], u);
      assert EngineActions(id, es)[..n] == EngineActions(id, es[..n]);
      EngineDoes(y, id, u, es[n], d);
    }
  }

  lemma {:induction false} EngineDoes(y: System, id: string, u: Config, e: Event, d: Config)
    requires y.wal.mode == Serving && id in y.wal.threads && !Blocking(e) && e != DeactivateCalled && Fire(id, u, e) == Some(d)
    ensures Do(AfterEngine(y, id, u), Engine(id, e)) == Some(AfterEngine(y, id, d))
  {
    assert y.blemished + {} == y.blemished;
    assert y.wal.threads[id := u.thread][id := d.thread] == y.wal.threads[id := d.thread];
  }

  lemma {:induction false} Then(y: System, a: seq<Action>, m: System, b: seq<Action>, z: System) returns (all: seq<Action>)
    requires Play(y, a) == Some(m) && Play(m, b) == Some(z) && HelperDies !in a && HelperDies !in b
    ensures Play(y, all) == Some(z) && HelperDies !in all
  {
    PlayAppend(y, a, m, b);
    all := a + b;
  }

  lemma {:induction false} Single(y: System, a: Action, z: System)
    requires Do(y, a) == Some(z)
    ensures Play(y, [a]) == Some(z)
  {
    hide Do;
    PlayOne(y, [], y, a);
    assert [] + [a] == [a];
  }

  // ---- What a continuation does to the sessions ----

  /** How far the monitor is from its end; every step it makes goes down. */
  function Rank(m: Monitor): nat {
    match m
    case Watching => 7
    case Activating(_, _) => 6
    case Returned(_, _) => 5
    case Assigned(_) => 4
    case SetupFailed => 3
    case DeadlinePassed => 3
    case AwaitExit => 2
    case Exiting => 1
    case Finished => 0
    case Unstarted => 0
  }

  predicate GoesOn(s: Session, t: Session) {
    && (s.exited ==> t.exited) && (t.monitor == Unstarted <==> s.monitor == Unstarted)
    && Rank(t.monitor) <= Rank(s.monitor)
  }

  /** The helper has lived on, without new sessions and without failed calls. */
  ghost predicate LivesOn(y: System, z: System) {
    && y.wal.mode == Serving && z.wal.mode == Serving && z.blemished == y.blemished && z.table.Keys == y.table.Keys
    && forall sid :: sid in y.table ==> GoesOn(y.table[sid], z.table[sid])
  }

  lemma {:induction false} Lives(y: System, z: System)
    requires LivesOn(y, z)
    ensures y.wal.mode == Serving && z.wal.mode == Serving && z.table.Keys == y.table.Keys
  {
  }

  lemma {:induction false} LivesOnAgain(y: System, m: System, z: System)
    requires LivesOn(y, m) && LivesOn(m, z)
    ensures LivesOn(y, z)
  {
    forall sid | sid in y.table
      ensures GoesOn(y.table[sid], z.table[sid])
    {
      assert GoesOn(y.table[sid], m.table[sid]) && GoesOn(m.table[sid], z.table[sid]);
    }
  }

  lemma {:induction false} OneMoves(y: System, z: System, sid: nat)
    requires y.wal.mode == Serving && z.wal.mode == Serving && z.blemished == y.blemished
    requires sid in y.table && sid in z.table && z.table == y.table[sid := z.table[sid]] && GoesOn(y.table[sid], z.table[sid])
    ensures LivesOn(y, z)
  {
    hide Rank;
    forall other | other in y.table
      ensures GoesOn(y.table[other], z.table[other])
    {
    }
  }

  lemma {:induction false} JoinRuns(y: System, a: seq<Action>, m: System, b: seq<Action>, z: System) returns (all: seq<Action>)
    requires Play(y, a) == Some(m) && Play(m, b) == Some(z) && HelperDies !in a && HelperDies !in b
    requires LivesOn(y, m) && LivesOn(m, z)
    ensures Play(y, all) == Some(z) && HelperDies !in all && LivesOn(y, z)
  {
    hide LivesOn, Play;
    all := Then(y, a, m, b, z);
    LivesOnAgain(y, m, z);
  }

  // ---- The engine comes to rest ----

  lemma {:induction false} EngineRests(y: System, id: string) returns (more: seq<Action>, z: System)
    requires SystemInv(y) && y.wal.mode == Serving && id in y.wal.threads
    ensures Play(y, more) == Some(z) && HelperDies !in more && SystemInv(z)
    ensures z == y.(wal := z.wal) && z.wal.mode == Serving && id in z.wal.threads && AtRest(z.wal.threads[id].pc)
    ensures Undoing(y.wal.threads[id].pc) ==> z.wal.threads[id].pc.Settled?
  {
    hide Do;
    assert ThreadInv(y.wal.shared, id, y.wal.threads[id]);
    var es, d := CanRest(id, y.wal.shared, y.wal.threads[id]);
    PlayEngine(y, id, es, d);
    more, z := EngineActions(id, es), AfterEngine(y, id, d);
    PlayKeepsInv(y, more);
  }

  // ---- Critical sections can be left ----

  /** What the transaction of a session is doing. */
  lemma {:induction false} TransactionStage(y: System, sid: nat)
    requires SystemInv(y) && y.wal.mode == Serving && sid in y.table && y.table[sid].transaction.Some?
    ensures var id := y.table[sid].transaction.value;
            && id in y.wal.threads
            && (if Releasing(y.lock, sid) then Undoing(y.wal.threads[id].pc) else y.wal.threads[id].pc == Established)
  {
    assert SessionInv(y.table[sid], Releasing(y.lock, sid)) && Charged(y, sid);
  }

  /** Deactivate returns. */
  lemma {:induction false} ReleaseEnds(y: System, sid: nat) returns (more: seq<Action>, z: System)
    requires SystemInv(y) && y.wal.mode == Serving && sid in y.table && Releasing(y.lock, sid)
    ensures Play(y, more) == Some(z) && HelperDies !in more && SystemInv(z)
    ensures z == y.(wal := z.wal) && z.wal.mode == Serving && ReleaseDone(z, y.table[sid])
  {
    if y.table[sid].transaction.Some? {
      TransactionStage(y, sid);
      more, z := EngineRests(y, y.table[sid].transaction.value);
    } else {
      more, z := [], y;
    }
  }

  lemma {:induction false} AfterSectionGoesOn(s: Session, section: Section)
    requires section == FinishSection ==> s.monitor == Exiting
    requires section == FailSection(true) ==> s.monitor == SetupFailed || s.monitor == DeadlinePassed
    ensures GoesOn(s, AfterSection(s, section)) && GoesOn(s, AfterStop(s))
  {
  }

  lemma {:induction false} InsideCloses(y: System) returns (more: seq<Action>, z: System)
    requires SystemInv(y) && y.wal.mode == Serving && y.lock.Inside?
    ensures Play(y, more) == Some(z) && HelperDies !in more && SystemInv(z) && LivesOn(y, z) && z.lock == Free
    ensures z.table == y.table[y.lock.sid := AfterSection(y.table[y.lock.sid], y.lock.section)]
  {
    var sid, section := y.lock.sid, y.lock.section;
    var first, m := ReleaseEnds(y, sid);
    z := Put(m, sid, AfterSection(y.table[sid], section)).(lock := Free);
    assert Do(m, SectionEnds) == Some(z);
    Single(m, SectionEnds, z);
    more := Then(y, first, m, [SectionEnds], z);
    PlayKeepsInv(y, more);
    AfterSectionGoesOn(y.table[sid], section);
    OneMoves(y, z, sid);
  }

  lemma {:induction false} ResetStopCloses(y: System) returns (more: seq<Action>, z: System)
    requires SystemInv(y) && y.wal.mode == Serving && y.lock.ResetStop?
    ensures Play(y, more) == Some(z) && HelperDies !in more && SystemInv(z) && LivesOn(y, z) && z.lock == ResetLoop(y.lock.todo)
  {
    var sid := y.lock.sid;
    var first, m := ReleaseEnds(y, sid);
    z := Put(m, sid, AfterStop(y.table[sid])).(lock := ResetLoop(y.lock.todo));
    assert Do(m, SectionEnds) == Some(z);
    Single(m, SectionEnds, z);
    more := Then(y, first, m, [SectionEnds], z);
    PlayKeepsInv(y, more);
    AfterSectionGoesOn(y.table[sid], StopSection);
    OneMoves(y, z, sid);
  }

  /** A releasing section can be entered whenever the lock allows it. */
  lemma {:induction false} CanEnter(y: System, sid: nat, lock: Lock) returns (z: System)
    requires SystemInv(y) && y.wal.mode == Serving && sid in y.table && (y.lock == Free || y.lock.ResetLoop?)
    ensures EnterRelease(y, sid, lock, {}) == Some(z) && z.lock == lock && LivesOn(y, z)
    ensures z.table[sid].monitor == y.table[sid].monitor
  {
    hide EnterRelease, Rank, SystemInv;
    z := EnterWorks(y, sid, lock);
    ReleaseOnlyCounts(y, sid, lock, {});
    forall other | other in y.table
      ensures GoesOn(y.table[other], z.table[other])
    {
      assert z.table[other] == y.table[other].(released := z.table[other].released);
    }
  }

  lemma {:induction false} EnterWorks(y: System, sid: nat, lock: Lock) returns (z: System)
    requires SystemInv(y) && y.wal.mode == Serving && sid in y.table && (y.lock == Free || y.lock.ResetLoop?)
    ensures EnterRelease(y, sid, lock, {}) == Some(z) && z.lock == lock && z.wal.mode == Serving && z.blemished == y.blemished
  {
    hide Fire, SystemInv;
    var s := y.table[sid];
    if s.transaction.Some? {
      TransactionStage(y, sid);
      DeactivateStarts(y, s.transaction.value);
    }
    z := EnterRelease(y, sid, lock, {}).value;
  }

  lemma {:induction false} ResetEnters(y: System, sid: nat) returns (more: seq<Action>, z: System)
    requires SystemInv(y) && y.wal.mode == Serving && y.lock.ResetLoop? && sid in y.lock.todo
    ensures Play(y, more) == Some(z) && HelperDies !in more && SystemInv(z) && LivesOn(y, z)
    ensures z.lock == ResetStop(sid, y.lock.todo - {sid})
  {
    hide EnterRelease, Advance;
    more := [ResetNext(sid, {})];
    z := CanEnter(y, sid, ResetStop(sid, y.lock.todo - {sid}));
    Single(y, ResetNext(sid, {}), z);
    PlayKeepsInv(y, more);
  }

  lemma {:induction false} ResetCloses(y: System) returns (more: seq<Action>, z: System)
    requires SystemInv(y) && y.wal.mode == Serving && y.lock == ResetLoop({})
    ensures Play(y, more) == Some(z) && HelperDies !in more && SystemInv(z) && LivesOn(y, z) && z.lock == Free
  {
    more, z := [ResetDone], y.(lock := Free, sessions := map[]);
    Single(y, ResetDone, z);
    PlayKeepsInv(y, more);
  }

  lemma {:induction false} ResetGoesOn(y: System) returns (more: seq<Action>, z: System)
    requires SystemInv(y) && y.wal.mode == Serving && y.lock.ResetLoop?
    ensures Play(y, more) == Some(z) && HelperDies !in more && SystemInv(z) && LivesOn(y, z) && z.lock == Free
    decreases if y.lock.ResetLoop? then y.lock.todo else {}
  {
    hide SystemInv, Play, LivesOn;
    if y.lock.todo == {} {
      more, z := ResetCloses(y);
    } else {
      var sid :| sid in y.lock.todo;
      var first, m := ResetEnters(y, sid);
      Lives(y, m);
      var second, n := ResetStopCloses(m);
      Lives(m, n);
      var both := JoinRuns(y, first, m, second, n);
      var rest;
      rest, z := ResetGoesOn(n);
      more := JoinRuns(y, both, n, rest, z);
    }
  }

  /** The lock never stays taken: from whatever point of a section, it can be
      freed again without the helper dying. */
  lemma {:induction false} LockOpens(y: System) returns (more: seq<Action>, z: System)
    requires SystemInv(y) && y.wal.mode == Serving
    ensures Play(y, more) == Some(z) && HelperDies !in more && SystemInv(z) && LivesOn(y, z) && z.lock == Free
  {
    match y.lock
    case Free => more, z := [], y;
    case Inside(_, _) => more, z := InsideCloses(y);
    case ResetLoop(_) => more, z := ResetGoesOn(y);
    case ResetStop(_, _) =>
      var first, m := ResetStopCloses(y);
      var rest;
      rest, z := ResetGoesOn(m);
      more := JoinRuns(y, first, m, rest, z);
  }

  // ---- Monitors come to their end ----

  /** One step of the session itself. */
  lemma {:induction false} SessionMoves(y: System, a: Action, sid: nat, after: Session) returns (more: seq<Action>, z: System)
    requires SystemInv(y) && y.wal.mode == Serving && sid in y.table && SessionStep(a)
    requires DoSession(y, a) == Some(Put(y, sid, after)) && GoesOn(y.table[sid], after)
    ensures Play(y, more) == Some(z) && HelperDies !in more && SystemInv(z) && LivesOn(y, z) && z.lock == y.lock
    ensures z == Put(y, sid, after)
  {
    hide DoSession, Rank;
    more, z := [a], Put(y, sid, after);
    Single(y, a, z);
    PlayKeepsInv(y, more);
    OneMoves(y, z, sid);
  }

  lemma {:induction false} ActivateEnds(y: System, sid: nat) returns (more: seq<Action>, z: System)
    requires SystemInv(y) && y.wal.mode == Serving && y.lock == Free && sid in y.table && y.table[sid].monitor.Activating?
    ensures Play(y, more) == Some(z) && HelperDies !in more && SystemInv(z) && LivesOn(y, z) && z.lock == Free
    ensures Rank(z.table[sid].monitor) < Rank(y.table[sid].monitor)
  {
    ActivatingKnown(y, sid);
    hide SystemInv, Play, DoSession;
    var first, m := EngineRests(y, y.table[sid].monitor.txn);
    var after := ActivateStep(m, sid);
    var second;
    second, z := SessionMoves(m, ActivateReturns(sid), sid, after);
    assert LivesOn(y, m);
    more := JoinRuns(y, first, m, second, z);
  }

  lemma {:induction false} ActivatingKnown(y: System, sid: nat)
    requires SystemInv(y) && y.wal.mode == Serving && sid in y.table && y.table[sid].monitor.Activating?
    ensures y.table[sid].monitor.txn in y.wal.threads
  {
    assert Charged(y, sid);
  }

  lemma {:induction false} ActivateStep(y: System, sid: nat) returns (after: Session)
    requires sid in y.table && y.table[sid].monitor.Activating? && y.table[sid].monitor.txn in y.wal.threads
    requires AtRest(y.wal.threads[y.table[sid].monitor.txn].pc)
    ensures DoSession(y, ActivateReturns(sid)) == Some(Put(y, sid, after)) && GoesOn(y.table[sid], after)
    ensures Rank(after.monitor) < Rank(y.table[sid].monitor)
  {
    var s := y.table[sid];
    after := if y.wal.threads[s.monitor.txn].pc == Established
             then s.(monitor := Returned(s.monitor.txn, s.monitor.iface), activated := s.activated + 1)
             else s.(monitor := SetupFailed);
  }

  /** A section of the monitor, entered and left. */
  lemma {:induction false} SectionRuns(y: System, a: Action, sid: nat, section: Section) returns (more: seq<Action>, z: System)
    requires SystemInv(y) && y.wal.mode == Serving && y.lock == Free && sid in y.table
    requires (a == FinishCall(sid, {}) && section == FinishSection && y.table[sid].monitor == Exiting)
             || (a == FailCall(sid, true, {}) && section == FailSection(true)
                 && (y.table[sid].monitor == SetupFailed || y.table[sid].monitor == DeadlinePassed))
    ensures Play(y, more) == Some(z) && HelperDies !in more && SystemInv(z) && LivesOn(y, z) && z.lock == Free
    ensures Rank(z.table[sid].monitor) < Rank(y.table[sid].monitor)
  {
    hide SystemInv, Play, LivesOn, AfterSection, Rank;
    var m := SectionEnters(y, a, sid, section);
    Lives(y, m);
    var second;
    second, z := InsideCloses(m);
    SectionGoesDown(m.table[sid], section);
    more := JoinRuns(y, [a], m, second, z);
  }

  lemma {:induction false} SectionGoesDown(s: Session, section: Section)
    requires (section == FinishSection && s.monitor == Exiting)
             || (section == FailSection(true) && (s.monitor == SetupFailed || s.monitor == DeadlinePassed))
    ensures Rank(AfterSection(s, section).monitor) < Rank(s.monitor)
  {
  }

  lemma {:induction false} SectionEnters(y: System, a: Action, sid: nat, section: Section) returns (z: System)
    requires SystemInv(y) && y.wal.mode == Serving && y.lock == Free && sid in y.table
    requires (a == FinishCall(sid, {}) && section == FinishSection && y.table[sid].monitor == Exiting)
             || (a == FailCall(sid, true, {}) && section == FailSection(true)
                 && (y.table[sid].monitor == SetupFailed || y.table[sid].monitor == DeadlinePassed))
    ensures Play(y, [a]) == Some(z) && SystemInv(z) && LivesOn(y, z) && z.lock == Inside(section, sid)
    ensures z.table[sid].monitor == y.table[sid].monitor
  {
    hide EnterRelease, Advance, LockInv, SessionInv, Charged, WorldInv;
    z := CanEnter(y, sid, Inside(section, sid));
    Single(y, a, z);
    PlayKeepsInv(y, [a]);
  }

  /** Once the process has exited the monitor always has a next step. */
  lemma {:induction false} MonitorMoves(y: System, sid: nat) returns (more: seq<Action>, z: System)
    requires SystemInv(y) && y.wal.mode == Serving && y.lock == Free
    requires sid in y.table && y.table[sid].exited && Rank(y.table[sid].monitor) > 0
    ensures Play(y, more) == Some(z) && HelperDies !in more && SystemInv(z) && LivesOn(y, z) && z.lock == Free
    ensures Rank(z.table[sid].monitor) < Rank(y.table[sid].monitor)
  {
    hide SystemInv, LivesOn, Advance, DoSection;
    var s := y.table[sid];
    match s.monitor
    case Watching => more, z := SessionMoves(y, ExitReceived(sid), sid, s.(monitor := Exiting));
    case AwaitExit => more, z := SessionMoves(y, ExitReceived(sid), sid, s.(monitor := Exiting));
    case Activating(_, _) => more, z := ActivateEnds(y, sid);
    case Returned(txn, iface) =>
      more, z := SessionMoves(y, AssignTransaction(sid), sid, s.(transaction := Some(txn), monitor := Assigned(iface)));
    case Assigned(iface) =>
      more, z := SessionMoves(y, MarkConnected(sid), sid, s.(iface := iface, state := Connected, monitor := AwaitExit));
    case SetupFailed => more, z := SectionRuns(y, FailCall(sid, true, {}), sid, FailSection(true));
    case DeadlinePassed => more, z := SectionRuns(y, FailCall(sid, true, {}), sid, FailSection(true));
    case Exiting => more, z := SectionRuns(y, FinishCall(sid, {}), sid, FinishSection);
  }

  lemma {:induction false} MonitorEnds(y: System, sid: nat) returns (more: seq<Action>, z: System)
    requires SystemInv(y) && y.wal.mode == Serving && y.lock == Free && sid in y.table && y.table[sid].exited
    ensures Play(y, more) == Some(z) && HelperDies !in more && SystemInv(z) && LivesOn(y, z) && z.lock == Free
    ensures Rank(z.table[sid].monitor) == 0
    decreases Rank(y.table[sid].monitor)
  {
    hide SystemInv, Play;
    if Rank(y.table[sid].monitor) == 0 {
      more, z := Nothing(y);
    } else {
      var first, m := MonitorMoves(y, sid);
      var rest;
      rest, z := MonitorEnds(m, sid);
      more := JoinRuns(y, first, m, rest, z);
    }
  }

  lemma {:induction false} Nothing(y: System) returns (more: seq<Action>, z: System)
    requires y.wal.mode == Serving
    ensures more == [] && z == y && Play(y, more) == Some(z) && LivesOn(y, z)
  {
    more, z := [], y;
  }

  lemma {:induction false} CanFinish(y: System, sid: nat) returns (more: seq<Action>, z: System)
    requires SystemInv(y) && y.wal.mode == Serving && sid in y.table && y.table[sid].exited
    ensures Play(y, more) == Some(z) && HelperDies !in more && SystemInv(z) && LivesOn(y, z) && z.lock == Free
    ensures Rank(z.table[sid].monitor) == 0
  {
    hide SystemInv, Play;
    var first, m := LockOpens(y);
    var rest;
    rest, z := MonitorEnds(m, sid);
    more := JoinRuns(y, first, m, rest, z);
  }

  /** Finish is never out of reach: from every state of every run in which the
      helper serves and the process of a session has exited -- inside any
      section, in the middle of any Activate or rollback, after any failures --
      the helper can go on, without dying, to where finish has run, and it has
      run exactly once. */
  lemma {:induction false} FinishCanRun(y: System, actions: seq<Action>, z: System, sid: nat)
    returns (more: seq<Action>, end: System)
    requires Start(y) && Play(y, actions) == Some(z) && z.wal.mode == Serving
    requires sid in z.table && z.table[sid].exited && z.table[sid].monitor != Unstarted
    ensures HelperDies !in more && Play(z, more) == Some(end)
    ensures sid in end.table && end.table[sid].monitor == Finished && end.table[sid].finishes == 1
    ensures end.table[sid].transaction == None && end.table[sid].released == end.table[sid].activated
  {
    StartsProperly(y);
    PlayKeepsInv(y, actions);
    more, end := CanFinish(z, sid);
    assert GoesOn(z.table[sid], end.table[sid]);
    assert SessionInv(end.table[sid], Releasing(end.lock, sid));
  }

  /** The same for all the sessions `todo`, whose processes exit one by one. */
  lemma {:induction false} AllCanFinish(y: System, todo: set<nat>) returns (more: seq<Action>, z: System)
    requires SystemInv(y) && y.wal.mode == Serving && todo <= y.table.Keys
    ensures Play(y, more) == Some(z) && HelperDies !in more && SystemInv(z) && LivesOn(y, z) && z.lock == Free
    ensures forall sid :: sid in todo ==> Rank(z.table[sid].monitor) == 0
    decreases todo
  {
    hide SystemInv, Play;
    if todo == {} {
      more, z := LockOpens(y);
    } else {
      var sid :| sid in todo;
      var s := y.table[sid];
      var first, m := SessionMoves(y, ProcessExits(sid), sid, s.(exited := true));
      var second, n := CanFinish(m, sid);
      var both := JoinRuns(y, first, m, second, n);
      var rest;
      rest, z := AllCanFinish(n, todo - {sid});
      more := JoinRuns(y, both, n, rest, z);
      forall other | other in todo
        ensures Rank(z.table[other].monitor) == 0
      {
        assert GoesOn(n.table[other], z.table[other]);
      }
    }
  }

  /** The helper can always wind down: from every state of every run in which it
      serves it can go on, without dying, to where every monitor has ended, and
      then all that is left in the journal or in place belongs to transactions
      that had met a failed call before. */
  lemma {:induction false} CanWindDown(y: System, actions: seq<Action>, z: System) returns (more: seq<Action>, end: System)
    requires Start(y) && Play(y, actions) == Some(z) && z.wal.mode == Serving
    ensures HelperDies !in more && Play(z, more) == Some(end) && end.wal.mode == Serving && end.lock == Free
    ensures end.table.Keys == z.table.Keys
    ensures forall sid :: sid in end.table ==> end.table[sid].monitor == Finished || end.table[sid].monitor == Unstarted
    ensures end.wal.shared.files.Keys <= z.blemished
    ensures forall r :: r in end.wal.shared.held ==> end.wal.shared.held[r] in z.blemished
    ensures z.blemished == {} ==> end.wal.shared.files == map[] && end.wal.shared.held == map[]
  {
    StartsProperly(y);
    PlayKeepsInv(y, actions);
    more, end := AllCanFinish(z, z.table.Keys);
    PlayAppend(y, actions, z, more);
    Conservation(y, actions + more);
  }
}
