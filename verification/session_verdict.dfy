/** Which of its two ends a session comes to: whether it is shown as stopped or
    as failed is decided by its state at the moment finish takes the lock. */
module SessionVerdict {
  import opened Wrappers
  import opened EngineTypes
  import opened WalMachine
  import opened WalSafety
  import opened SessionMachine
  import opened SessionSafety

  /** While a section is open nothing but its end, or the death of the helper,
      frees the lock or moves the state of the session it is about. */
  lemma {:induction false} LockHolds(y: System, a: Action, sid: nat, section: Section)
    requires y.wal.mode == Serving && y.lock == Inside(section, sid) && sid in y.table
    requires Do(y, a).Some? && a != SectionEnds && a != HelperDies
    ensures var z := Do(y, a).value;
            && z.wal.mode == Serving && z.lock == y.lock && sid in z.table && z.table[sid].state == y.table[sid].state
  {
    hide Advance;
    if SessionStep(a) {
      SessionUnderLock(y, a, sid);
    } else if SectionStep(a) {
      assert false;
    } else {
      EngineUnderLock(y, a, sid);
    }
  }

  lemma {:induction false} SessionUnderLock(y: System, a: Action, sid: nat)
    requires y.lock.Inside? && sid in y.table && DoSession(y, a).Some?
    ensures var z := DoSession(y, a).value;
            z.wal == y.wal && z.lock == y.lock && sid in z.table && z.table[sid].state == y.table[sid].state
  {
  }

  lemma {:induction false} EngineUnderLock(y: System, a: Action, sid: nat)
    requires y.wal.mode == Serving && y.lock.Inside? && sid in y.table && DoEngine(y, a).Some?
    ensures var z := DoEngine(y, a).value;
            z.wal.mode == Serving && z.lock == y.lock && sid in z.table && z.table[sid].state == y.table[sid].state
  {
  }

  /** Only finish takes the lock for the section of finish. */
  lemma {:induction false} TakesLock(y: System, a: Action, sid: nat)
    requires Do(y, a).Some? && y.lock != Inside(FinishSection, sid) && Do(y, a).value.lock == Inside(FinishSection, sid)
    ensures a.FinishCall? && a.sid == sid && y.wal.mode == Serving && y.lock == Free && sid in y.table
    ensures var z := Do(y, a).value;
            z.wal.mode == Serving && sid in z.table && z.table[sid].state == y.table[sid].state
    ensures y.table[sid].monitor == Exiting
  {
    hide DoSession, DoSection, DoEngine, DoDown;
    if a == HelperDies {
      assert false;
    } else if y.wal.mode != Serving {
      DownKeepsLock(y, a);
    } else if SessionStep(a) {
      SessionKeepsLock(y, a);
    } else if SectionStep(a) {
      SectionTakesLock(y, a, sid);
    } else {
      EngineKeepsLock(y, a);
    }
  }

  lemma {:induction false} DownKeepsLock(y: System, a: Action)
    requires DoDown(y, a).Some?
    ensures DoDown(y, a).value.lock == y.lock
  {
    hide Advance;
  }

  lemma {:induction false} SessionKeepsLock(y: System, a: Action)
    requires DoSession(y, a).Some?
    ensures DoSession(y, a).value.lock == y.lock
  {
  }

  lemma {:induction false} EngineKeepsLock(y: System, a: Action)
    requires DoEngine(y, a).Some?
    ensures DoEngine(y, a).value.lock == y.lock
  {
    hide Advance;
  }

  lemma {:induction false} SectionTakesLock(y: System, a: Action, sid: nat)
    requires y.wal.mode == Serving && DoSection(y, a).Some?
    requires y.lock != Inside(FinishSection, sid) && DoSection(y, a).value.lock == Inside(FinishSection, sid)
    ensures a.FinishCall? && a.sid == sid && y.lock == Free && sid in y.table && y.table[sid].monitor == Exiting
    ensures var z := DoSection(y, a).value;
            z.wal.mode == Serving && sid in z.table && z.table[sid].state == y.table[sid].state
  {
    hide Fire;
  }

  /** Where the open section of finish was entered. */
  lemma {:induction false} EnteredAt(y: System, actions: seq<Action>, z: System, sid: nat) returns (i: nat)
    requires Start(y) && Play(y, actions) == Some(z) && z.lock == Inside(FinishSection, sid)
    ensures i < |actions| && actions[i].FinishCall? && actions[i].sid == sid && Play(y, actions[..i]).Some?
    ensures var before := Play(y, actions[..i]).value;
            && sid in before.table && before.table[sid].monitor == Exiting
            && sid in z.table && z.table[sid].state == before.table[sid].state && z.wal.mode == Serving
    decreases |actions|
  {
    hide Do;
    var last := |actions| - 1;
    var u := Play(y, actions[..last]).value;
    if u.lock == Inside(FinishSection, sid) {
      i := EnteredAt(y, actions[..last], u, sid);
      assert actions[..last][..i] == actions[..i];
      KeepsLock(u, actions[last], sid);
      LockHolds(u, actions[last], sid, FinishSection);
    } else {
      i := last;
      TakesLock(u, actions[last], sid);
    }
  }

  lemma {:induction false} KeepsLock(y: System, a: Action, sid: nat)
    requires y.wal.mode == Serving && Do(y, a).Some? && y.lock == Inside(FinishSection, sid) && Do(y, a).value.lock == y.lock
    ensures a != SectionEnds && a != HelperDies
  {
  }

  /** Nothing but the end of the section of finish ends a monitor. */
  lemma {:induction false} EndsMonitor(y: System, a: Action, sid: nat)
    requires Do(y, a).Some? && y.wal.mode == Serving && sid in Do(y, a).value.table
    requires Do(y, a).value.table[sid].monitor == Finished && (sid in y.table ==> y.table[sid].monitor != Finished)
    ensures a == SectionEnds && y.lock == Inside(FinishSection, sid) && sid in y.table
    ensures var z := Do(y, a).value;
            && (y.table[sid].state == Stopped ==> z.table[sid].state == Stopped)
            && (y.table[sid].state != Stopped ==> z.table[sid].state == Failure)
  {
    hide DoSession, DoSection, DoEngine;
    if SessionStep(a) {
      SessionEndsNone(y, a, sid);
    } else if SectionStep(a) {
      SectionEndsOne(y, a, sid);
    } else {
      EngineEndsNone(y, a, sid);
    }
  }

  predicate Done(y: System, sid: nat) {
    sid in y.table && y.table[sid].monitor == Finished
  }

  lemma {:induction false} SessionEndsNone(y: System, a: Action, sid: nat)
    requires DoSession(y, a).Some?
    ensures Done(DoSession(y, a).value, sid) ==> Done(y, sid)
  {
  }

  lemma {:induction false} EngineEndsNone(y: System, a: Action, sid: nat)
    requires DoEngine(y, a).Some?
    ensures Done(DoEngine(y, a).value, sid) ==> Done(y, sid)
  {
    hide Advance;
  }

  lemma {:induction false} SectionEndsOne(y: System, a: Action, sid: nat)
    requires DoSection(y, a).Some? && Done(DoSection(y, a).value, sid) && !Done(y, sid)
    ensures a == SectionEnds && y.lock == Inside(FinishSection, sid) && sid in y.table
    ensures var z := DoSection(y, a).value;
            && (y.table[sid].state == Stopped ==> z.table[sid].state == Stopped)
            && (y.table[sid].state != Stopped ==> z.table[sid].state == Failure)
  {
    hide EnterRelease;
    if a != SectionEnds {
      EnteringKeepsTable(y, a);
      EnteringKeepsMonitors(y, a);
    }
  }

  lemma {:induction false} EnteringKeepsTable(y: System, a: Action)
    requires DoSection(y, a).Some? && a != SectionEnds
    ensures DoSection(y, a).value.table.Keys == y.table.Keys
  {
    hide Advance;
  }

  lemma {:induction false} DownHasNoSessions(y: System, a: Action)
    requires SystemInv(y) && y.wal.mode != Serving && Do(y, a).Some?
    ensures Do(y, a).value.table == map[]
  {
    hide Advance;
  }

  /** The verdict on a session, for every run that ends with it finished: there
      was one run of finish on it, and the state in which that took the lock
      decides; what was stopped then comes out as stopped, all else as failed,
      whatever other steps fell between taking and leaving the lock. */
  lemma {:induction false} FinishVerdict(y: System, actions: seq<Action>, z: System, sid: nat) returns (i: nat, j: nat)
    requires Start(y) && Play(y, actions) == Some(z) && sid in z.table && z.table[sid].monitor == Finished
    ensures i < j < |actions| && actions[i].FinishCall? && actions[i].sid == sid && actions[j] == SectionEnds
    ensures Play(y, actions[..i]).Some? && Play(y, actions[..j + 1]).Some?
    ensures var before, after := Play(y, actions[..i]).value, Play(y, actions[..j + 1]).value;
            && sid in before.table && before.table[sid].monitor == Exiting
            && sid in after.table && after.table[sid].monitor == Finished
            && (before.table[sid].state == Stopped ==> after.table[sid].state == Stopped)
            && (before.table[sid].state != Stopped ==> after.table[sid].state == Failure)
    ensures HelperDies !in actions[j + 1..]
    decreases |actions|
  {
    hide Do, SystemInv;
    var last := |actions| - 1;
    var u := Play(y, actions[..last]).value;
    StartsProperly(y);
    PlayKeepsInv(y, actions[..last]);
    DeathEmpties(u, actions[last]);
    if u.wal.mode != Serving {
      DownHasNoSessions(u, actions[last]);
    } else if sid in u.table && u.table[sid].monitor == Finished {
      i, j := FinishVerdict(y, actions[..last], u, sid);
      OneLonger(actions, i, j);
    } else {
      EndsMonitor(u, actions[last], sid);
      i := EnteredAt(y, actions[..last], u, sid);
      j := last;
      OneShorter(actions, i);
    }
  }

  lemma {:induction false} OneLonger<T>(s: seq<T>, i: nat, j: nat)
    requires i < j < |s| - 1
    ensures s[..|s| - 1][..i] == s[..i] && s[..|s| - 1][..j + 1] == s[..j + 1]
    ensures s[j + 1..] == s[..|s| - 1][j + 1..] + [s[|s| - 1]]
  {
  }

  lemma {:induction false} OneShorter<T>(s: seq<T>, i: nat)
    requires i < |s|
    ensures s[..|s| - 1][..i] == s[..i] && s[..|s|] == s && s[|s|..] == []
  {
  }

  lemma {:induction false} DeathEmpties(y: System, a: Action)
    requires Do(y, a).Some? && Do(y, a).value.table != map[]
    ensures a != HelperDies
  {
  }

  // ---- What becomes of the verdict ----

  /** One step on a finished session without a management channel. */
  lemma {:induction false} VerdictStep(y: System, a: Action, sid: nat)
    requires SystemInv(y) && Do(y, a).Some? && a != HelperDies
    requires sid in y.table && y.table[sid].monitor == Finished && y.table[sid].protocol != OpenVPN
    ensures sid in Do(y, a).value.table && Do(y, a).value.table[sid].protocol == y.table[sid].protocol
    ensures Do(y, a).value.table[sid].state == y.table[sid].state
            || (a == SectionEnds && Do(y, a).value.table[sid].state == Stopped)
  {
    hide DoSession, DoSection, DoEngine;
    assert SessionInv(y.table[sid], Releasing(y.lock, sid));
    if y.wal.mode != Serving {
      assert false;
    } else if SessionStep(a) {
      SessionKeepsVerdict(y, a, sid);
    } else if SectionStep(a) {
      SectionKeepsVerdict(y, a, sid);
    } else {
      EngineKeepsVerdict(y, a, sid);
    }
  }

  predicate SameOrStopped(y: System, a: Action, z: System, sid: nat)
    requires sid in y.table
  {
    sid in z.table && z.table[sid].protocol == y.table[sid].protocol
    && (z.table[sid].state == y.table[sid].state || (a == SectionEnds && z.table[sid].state == Stopped))
  }

  lemma {:induction false} SessionKeepsVerdict(y: System, a: Action, sid: nat)
    requires sid in y.table && DoSession(y, a).Some?
    requires Ended(y.table[sid]) && y.table[sid].protocol != OpenVPN && y.table[sid].monitor == Finished
    ensures SameOrStopped(y, a, DoSession(y, a).value, sid)
  {
  }

  lemma {:induction false} EngineKeepsVerdict(y: System, a: Action, sid: nat)
    requires sid in y.table && DoEngine(y, a).Some? && y.table[sid].monitor == Finished
    ensures SameOrStopped(y, a, DoEngine(y, a).value, sid)
  {
    hide Advance;
  }

  lemma {:induction false} SectionKeepsVerdict(y: System, a: Action, sid: nat)
    requires sid in y.table && LockInv(y) && DoSection(y, a).Some?
    requires y.table[sid].monitor == Finished && y.table[sid].protocol != OpenVPN
    ensures SameOrStopped(y, a, DoSection(y, a).value, sid)
  {
    hide EnterRelease;
    if a != SectionEnds {
      EnteringKeepsMonitors(y, a);
    }
  }

  /** What a finished session without a management channel is shown as changes
      in one way only: a failed one can still be stopped.  One that is stopped
      stays so. */
  lemma {:induction false} VerdictStays(y: System, before: seq<Action>, z: System, later: seq<Action>, end: System, sid: nat)
    requires Start(y) && Play(y, before) == Some(z) && Play(z, later) == Some(end) && HelperDies !in later
    requires sid in z.table && z.table[sid].monitor == Finished && z.table[sid].protocol != OpenVPN
    ensures sid in end.table
    ensures end.table[sid].state == z.table[sid].state || end.table[sid].state == Stopped
    decreases |later|
  {
    hide Do;
    StartsProperly(y);
    PlayKeepsInv(y, before);
    if later != [] {
      var u := Play(z, later[..|later| - 1]).value;
      VerdictStays(y, before, z, later[..|later| - 1], u, sid);
      FinishedPersists(z, later[..|later| - 1], u, sid);
      VerdictStep(u, later[|later| - 1], sid);
    }
  }
}
