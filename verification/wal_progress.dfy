/** Progress of one transaction: wherever its code stands, the calls can go
    well, and then Activate or the rollback returns. */
module WalProgress {
  import opened Wrappers
  import opened EngineTypes
  import opened WalMachine
  import opened WalSafety
  import opened WalRuns

  predicate Clean(es: seq<Event>) {
    forall k :: 0 <= k < |es| ==> !Blocking(es[k]) && es[k] != DeactivateCalled
  }

  lemma {:induction false} CleanConcat(es: seq<Event>, fs: seq<Event>)
    requires Clean(es) && Clean(fs)
    ensures Clean(es + fs)
  {
  }

  lemma {:induction false} ThreeSteps(id: string, c: Config, c1: Config, c2: Config, e0: Event, e1: Event, e2: Event)
    requires Fire(id, c, e0) == Some(c1) && Fire(id, c1, e1) == Some(c2)
    ensures Exec(id, c, [e0, e1, e2]) == Fire(id, c2, e2)
  {
    ExecStep(id, c, [], c, e0);
    assert [] + [e0] == [e0] && [e0] + [e1] == [e0, e1] && [e0, e1] + [e2] == [e0, e1, e2];
    ExecStep(id, c, [e0], c1, e1);
    ExecStep(id, c, [e0, e1], c2, e2);
  }

  lemma {:induction false} OneStep(id: string, c: Config, e: Event)
    ensures Exec(id, c, [e]) == Fire(id, c, e)
  {
    ExecStep(id, c, [], c, e);
    assert [] + [e] == [e];
  }

  lemma {:induction false} Joined(id: string, c: Config, es: seq<Event>, d: Config, fs: seq<Event>, f: Config)
    returns (all: seq<Event>)
    requires Exec(id, c, es) == Some(d) && Exec(id, d, fs) == Some(f) && Clean(es) && Clean(fs)
    ensures Exec(id, c, all) == Some(f) && Clean(all) && all == es + fs
  {
    ExecConcat(id, c, es, d, fs);
    CleanConcat(es, fs);
    all := es + fs;
  }

  /** Activation of any plan can succeed. */
  lemma {:induction false} CanEstablish(id: string, c: Config) returns (es: seq<Event>, d: Config)
    requires c.thread.pc == NextMutation && |c.thread.memory.mutations| <= |c.thread.plan|
    ensures Exec(id, c, es) == Some(d) && Clean(es) && d.thread.pc == Established
    decreases |c.thread.plan| - |c.thread.memory.mutations|
  {
    if |c.thread.memory.mutations| == |c.thread.plan| {
      es, d := [Resaved(Saved)], Fire(id, c, Resaved(Saved)).value;
      OneStep(id, c, Resaved(Saved));
    } else {
      var first, c3 := OneMutation(id, c);
      var rest;
      rest, d := CanEstablish(id, c3);
      es := Joined(id, c, first, c3, rest, d);
    }
  }

  lemma {:induction false} OneMutation(id: string, c: Config) returns (es: seq<Event>, c3: Config)
    requires c.thread.pc == NextMutation && |c.thread.memory.mutations| < |c.thread.plan|
    ensures Exec(id, c, es) == Some(c3) && Clean(es) && c3.thread.pc == NextMutation && c3.thread.plan == c.thread.plan
    ensures |c3.thread.memory.mutations| == |c.thread.memory.mutations| + 1
  {
    var e0, e1, e2 := Appended("m", Saved), ApplyReturned(true, true, ""), Resaved(Saved);
    var c1 := Fire(id, c, e0).value;
    var c2 := Fire(id, c1, e1).value;
    c3 := Fire(id, c2, e2).value;
    ThreeSteps(id, c, c1, c2, e0, e1, e2);
    es := [e0, e1, e2];
  }

  /** A rollback can go through. */
  lemma {:induction false} CanRollBack(id: string, c: Config) returns (es: seq<Event>, d: Config)
    requires c.thread.pc == StartRollback
    ensures Exec(id, c, es) == Some(d) && Clean(es) && d.thread.pc == Settled(false)
  {
    var c1 := Fire(id, c, Resaved(Saved)).value;
    OneStep(id, c, Resaved(Saved));
    var rest;
    rest, d := CanScan(id, c1);
    es := Joined(id, c, [Resaved(Saved)], c1, rest, d);
  }

  /** Also one that met an error before. */
  lemma {:induction false} CanScan(id: string, c: Config) returns (es: seq<Event>, d: Config)
    requires c.thread.pc.Scan? && c.thread.pc.todo <= |c.thread.memory.mutations|
    ensures Exec(id, c, es) == Some(d) && Clean(es) && d.thread.pc == Settled(c.thread.pc.failed)
    decreases if c.thread.pc.Scan? then c.thread.pc.todo else 0
  {
    if c.thread.pc.todo == 0 {
      var e := if c.thread.pc.failed then Resaved(Saved) else RemoveReturned(true, true);
      es, d := [e], Fire(id, c, e).value;
      OneStep(id, c, e);
    } else {
      var first, c1 := OneTurn(id, c);
      var rest;
      rest, d := CanScan(id, c1);
      es := Joined(id, c, first, c1, rest, d);
    }
  }

  lemma {:induction false} OneTurn(id: string, c: Config) returns (es: seq<Event>, c3: Config)
    requires c.thread.pc.Scan? && 0 < c.thread.pc.todo <= |c.thread.memory.mutations|
    ensures Exec(id, c, es) == Some(c3) && Clean(es)
    ensures c3.thread.pc == Scan(c.thread.pc.todo - 1, c.thread.pc.failed)
    ensures |c3.thread.memory.mutations| == |c.thread.memory.mutations|
  {
    var k := c.thread.pc.todo - 1;
    if Live(c.thread.memory.mutations[k]) {
      var e0, e1, e2 := OwnedReturned(k, Yes), UndoReturned(k, true, true, ""), Resaved(Saved);
      var c1 := Fire(id, c, e0).value;
      var c2 := Fire(id, c1, e1).value;
      c3 := Fire(id, c2, e2).value;
      ThreeSteps(id, c, c1, c2, e0, e1, e2);
      es := [e0, e1, e2];
    } else {
      es, c3 := [Skipped(k)], Fire(id, c, Skipped(k)).value;
      OneStep(id, c, Skipped(k));
    }
  }

  /** Where a transaction rests until Deactivate is called. */
  predicate AtRest(pc: Pc) {
    pc == Established || pc.Settled?
  }

  /** How many calls its code is away from the head of a loop. */
  function Distance(pc: Pc): nat {
    match pc
    case ApplyPending => 2
    case CallUndo(_, _) => 2
    case SaveApplied => 1
    case SaveFailed => 1
    case SaveUndone(_, _) => 1
    case _ => 0
  }

  /** The call that its code makes next, with a good outcome. */
  function NextCall(pc: Pc): Event {
    match pc
    case ApplyPending => ApplyReturned(true, true, "")
    case CallUndo(todo, _) => if todo == 0 then Resaved(Saved) else UndoReturned(todo - 1, true, true, "")
    case _ => Resaved(Saved)
  }

  /** Wherever its code stands, a transaction can go on until it rests: it waits
      for nothing but the calls it makes itself. */
  lemma {:induction false} CanRest(id: string, s: Shared, t: Thread) returns (es: seq<Event>, d: Config)
    requires Safe(s) && FilesShaped(s) && ThreadInv(s, id, t)
    ensures Exec(id, Config(s, t), es) == Some(d) && Clean(es) && AtRest(d.thread.pc)
    ensures d.thread.pc == Established <==> Straight(t.pc) && t.pc != SaveFailed
    decreases Distance(t.pc)
  {
    hide Safe, FilesShaped, MemoryCovers;
    var c := Config(s, t);
    if AtRest(t.pc) {
      es, d := [], c;
    } else if Distance(t.pc) > 0 {
      var e := NextCall(t.pc);
      var c1 := Fire(id, c, e).value;
      FireSafe(id, s, t, e);
      OneStep(id, c, e);
      var rest;
      rest, d := CanRest(id, c1.shared, c1.thread);
      es := Joined(id, c, [e], c1, rest, d);
    } else if t.pc == NextMutation {
      es, d := CanEstablish(id, c);
    } else if t.pc == StartRollback {
      es, d := CanRollBack(id, c);
    } else {
      es, d := CanScan(id, c);
    }
  }
}
