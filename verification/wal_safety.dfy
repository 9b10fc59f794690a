/** Write-ahead safety: whatever is in place in the network is named by a
    journal record on disk, in every state of every run. */
module WalSafety {
  import opened Wrappers
  import opened EngineTypes
  import opened WalMachine

  /** Mutation `j` of the record may have put `r` in place and is not undone. */
  predicate ClaimsAt(tracked: set<MutationKind>, rec: Record, j: nat, r: string) {
    j < |rec.mutations| && Live(rec.mutations[j]) && rec.mutations[j].kind in tracked && rec.mutations[j].resource == r
  }

  ghost predicate Claims(tracked: set<MutationKind>, rec: Record, r: string) {
    exists j: nat :: ClaimsAt(tracked, rec, j, r)
  }

  /** The write-ahead property: every resource in place is claimed by the
      journal file of the transaction that put it there. */
  ghost predicate Safe(s: Shared) {
    forall r :: r in s.held ==> s.held[r] in s.files && Claims(s.tracked, s.files[s.held[r]], r)
  }

  /** A record whose last mutation may be in doubt, all earlier ones applied. */
  predicate OneInDoubt(ms: seq<Mutation>) {
    forall j :: 0 <= j < |ms| ==> ms[j].state == Applied || (j == |ms| - 1 && (ms[j].state == Pending || ms[j].state == Failed))
  }

  /** What the state of a record says about its mutations. */
  predicate Shaped(rec: Record) {
    && (rec.state == Preparing ==> OneInDoubt(rec.mutations))
    && (rec.state == Active ==> AllApplied(rec.mutations))
  }

  ghost predicate FilesShaped(s: Shared) {
    forall id :: id in s.files ==> s.files[id].id == id && Shaped(s.files[id])
  }

  /** The mutations so far are the beginning of the plan. */
  predicate Follows(ms: seq<Mutation>, plan: seq<Mutation>) {
    |ms| <= |plan| && forall j :: 0 <= j < |ms| ==> SameTarget(ms[j], plan[j])
  }

  predicate OnDisk(s: Shared, id: string, rec: Record) {
    id in s.files && s.files[id] == rec
  }

  /** What is known where the code of one transaction stands. */
  predicate PcInv(s: Shared, id: string, t: Thread) {
    var ms := t.memory.mutations;
    match t.pc
    case NextMutation => t.memory.state == Preparing && AllApplied(ms) && Follows(ms, t.plan) && OnDisk(s, id, t.memory)
    case ApplyPending =>
      && t.memory.state == Preparing && |ms| > 0 && AllApplied(ms[..|ms| - 1]) && ms[|ms| - 1].state == Pending
      && Follows(ms, t.plan) && OnDisk(s, id, t.memory)
    case SaveApplied =>
      && t.memory.state == Preparing && |ms| > 0 && AllApplied(ms) && Follows(ms, t.plan)
      && OnDisk(s, id, t.memory.(mutations := ms[|ms| - 1 := ms[|ms| - 1].(state := Pending)]))
    case SaveFailed =>
      && t.memory.state == Preparing && |ms| > 0 && AllApplied(ms[..|ms| - 1]) && ms[|ms| - 1].state == Failed
    case StartRollback => true
    case Scan(todo, failed) => Unwinding(t) && todo <= |ms| && (failed || NoneLive(ms, todo))
    case CallUndo(todo, failed) => Unwinding(t) && 0 < todo <= |ms| && Live(ms[todo - 1]) && (failed || NoneLive(ms, todo))
    case SaveUndone(todo, failed) => Unwinding(t) && 0 < todo <= |ms| && !Live(ms[todo - 1]) && (failed || NoneLive(ms, todo))
    case Established => t.memory.state == Active && AllApplied(ms) && |ms| == |t.plan| && Follows(ms, t.plan) && OnDisk(s, id, t.memory)
    case Settled(failed) => (t.memory.state == RollingBack || t.memory.state == Broken) && (failed || (NoneLive(ms, 0) && id !in s.files))
  }

  predicate Unwinding(t: Thread) {
    t.memory.state == RollingBack
  }

  /** The memory of a transaction claims all that is in place on its behalf. */
  ghost predicate MemoryCovers(s: Shared, id: string, t: Thread) {
    forall r :: r in s.held && s.held[r] == id ==> Claims(s.tracked, t.memory, r)
  }

  ghost predicate ThreadInv(s: Shared, id: string, t: Thread) {
    t.memory.id == id && Shaped(t.memory) && PcInv(s, id, t) && MemoryCovers(s, id, t)
  }

  // ---- Claims ----

  lemma {:induction false} ClaimsKept(tracked: set<MutationKind>, a: Record, b: Record, r: string)
    requires Claims(tracked, a, r)
    requires |a.mutations| <= |b.mutations|
    requires forall j :: 0 <= j < |a.mutations| && Live(a.mutations[j]) && a.mutations[j].resource == r ==>
               Live(b.mutations[j]) && b.mutations[j].kind == a.mutations[j].kind && b.mutations[j].resource == r
    ensures Claims(tracked, b, r)
  {
    var j: nat :| ClaimsAt(tracked, a, j, r);
    assert ClaimsAt(tracked, b, j, r);
  }

  // ---- One step ----

  /** Saving the memory keeps the resources covered. */
  lemma {:induction false} SaveSafe(s: Shared, id: string, t: Thread, rec: Record, o: SaveOutcome)
    requires Safe(s) && FilesShaped(s) && MemoryCovers(s, id, t)
    requires rec.mutations == t.memory.mutations && rec.id == id && Shaped(rec)
    ensures Safe(WithSave(s, rec, id, o)) && FilesShaped(WithSave(s, rec, id, o))
    ensures forall pc :: MemoryCovers(WithSave(s, rec, id, o), id, Thread(pc, t.plan, rec))
  {
    var s' := WithSave(s, rec, id, o);
    forall r | r in s.held && s.held[r] == id
      ensures Claims(s.tracked, rec, r)
    {
      ClaimsKept(s.tracked, t.memory, rec, r);
    }
  }

  lemma {:induction false} AppendSafe(id: string, s: Shared, t: Thread, identifier: string, o: SaveOutcome)
    requires Safe(s) && FilesShaped(s) && ThreadInv(s, id, t) && t.pc == NextMutation && |t.memory.mutations| < |t.plan|
    ensures var d := Fire(id, Config(s, t), Appended(identifier, o)).value;
            Safe(d.shared) && FilesShaped(d.shared) && ThreadInv(d.shared, id, d.thread)
  {
    hide FilesShaped;
    var ms := t.memory.mutations;
    var memory := t.memory.(mutations := ms + [NewMutation(t.plan[|ms|], identifier)]);
    forall r | r in s.held && s.held[r] == id
      ensures Claims(s.tracked, memory, r)
    {
      ClaimsKept(s.tracked, t.memory, memory, r);
    }
    SaveSafe(s, id, Thread(t.pc, t.plan, memory), memory, o);
    assert memory.mutations[..|ms|] == ms;
  }

  lemma {:induction false} ApplySafe(id: string, s: Shared, t: Thread, ok: bool, placed: bool, message: string)
    requires Safe(s) && FilesShaped(s) && ThreadInv(s, id, t) && t.pc == ApplyPending && (ok ==> placed)
    ensures var d := Fire(id, Config(s, t), ApplyReturned(ok, placed, message)).value;
            Safe(d.shared) && FilesShaped(d.shared) && ThreadInv(d.shared, id, d.thread)
  {
    hide Claims;
    var ms := t.memory.mutations;
    var d := Fire(id, Config(s, t), ApplyReturned(ok, placed, message)).value;
    var ns := d.thread.memory.mutations;
    ApplyClaims(id, s, t, ok, placed, message);
    assert ns[..|ns| - 1] == ms[..|ms| - 1];
    if ok {
      assert ns[|ns| - 1 := ns[|ns| - 1].(state := Pending)] == ms;
    }
  }

  /** What is in place is claimed on disk and in memory. */
  lemma {:induction false} ApplyClaims(id: string, s: Shared, t: Thread, ok: bool, placed: bool, message: string)
    requires ThreadInv(s, id, t) && t.pc == ApplyPending && (ok ==> placed)
    ensures var d := Fire(id, Config(s, t), ApplyReturned(ok, placed, message)).value;
            forall r :: r in d.shared.held && d.shared.held[r] == id ==> Claims(s.tracked, t.memory, r) && Claims(s.tracked, d.thread.memory, r)
  {
    var ms := t.memory.mutations;
    var m := ms[|ms| - 1];
    var d := Fire(id, Config(s, t), ApplyReturned(ok, placed, message)).value;
    forall r | r in d.shared.held && d.shared.held[r] == id
      ensures Claims(s.tracked, t.memory, r) && Claims(s.tracked, d.thread.memory, r)
    {
      if r == m.resource && placed && m.kind in s.tracked {
        assert ClaimsAt(s.tracked, t.memory, |ms| - 1, r);
      }
      ClaimsKept(s.tracked, t.memory, d.thread.memory, r);
    }
  }

  /** Marking a mutation undone is sound once its resource is not in place on
      this transaction's behalf. */
  lemma {:induction false} MarkUndoneSafe(id: string, s: Shared, t: Thread, k: nat, todo: nat, failed: bool)
    requires Safe(s) && FilesShaped(s) && t.memory.id == id && Unwinding(t) && MemoryCovers(s, id, t)
    requires k < |t.memory.mutations| && todo == k + 1 && (failed || NoneLive(t.memory.mutations, todo))
    requires var m := t.memory.mutations[k]; m.kind in s.tracked ==> m.resource !in s.held
    ensures var m := t.memory.mutations[k];
            ThreadInv(s, id, Thread(SaveUndone(todo, failed), t.plan,
              t.memory.(mutations := t.memory.mutations[k := m.(state := Undone, error := "")])))
  {
    var m := t.memory.mutations[k];
    var memory := t.memory.(mutations := t.memory.mutations[k := m.(state := Undone, error := "")]);
    forall r | r in s.held && s.held[r] == id
      ensures Claims(s.tracked, memory, r)
    {
      var j: nat :| ClaimsAt(s.tracked, t.memory, j, r);
      assert j != k;
      assert ClaimsAt(s.tracked, memory, j, r);
    }
  }

  lemma {:induction false} UndoSafe(id: string, s: Shared, t: Thread, todo: nat, failed: bool, ok: bool, withdrawn: bool, message: string)
    requires Safe(s) && FilesShaped(s) && ThreadInv(s, id, t) && t.pc == CallUndo(todo, failed) && (ok ==> withdrawn)
    ensures var d := Fire(id, Config(s, t), UndoReturned(todo - 1, ok, withdrawn, message)).value;
            Safe(d.shared) && FilesShaped(d.shared) && ThreadInv(d.shared, id, d.thread)
  {
    WithdrawnSafe(s, id, t, t.memory.mutations[todo - 1], withdrawn);
    if ok {
      MarkUndoneSafe(id, AfterUndo(s, t.memory.mutations[todo - 1], withdrawn), t, todo - 1, todo, failed);
    } else {
      UndoFailedSafe(id, s, t, todo, failed, withdrawn, message);
    }
  }

  lemma {:induction false} UndoFailedSafe(id: string, s: Shared, t: Thread, todo: nat, failed: bool, withdrawn: bool, message: string)
    requires ThreadInv(s, id, t) && t.pc == CallUndo(todo, failed)
    ensures var m := t.memory.mutations[todo - 1];
            ThreadInv(AfterUndo(s, m, withdrawn), id,
              Thread(Scan(todo - 1, true), t.plan, t.memory.(mutations := t.memory.mutations[todo - 1 := m.(error := message)])))
  {
    UndoFailedCovers(id, s, t, todo - 1, withdrawn, message, Scan(todo - 1, true));
  }

  lemma {:induction false} WithdrawnSafe(s: Shared, id: string, t: Thread, m: Mutation, withdrawn: bool)
    requires Safe(s) && FilesShaped(s) && MemoryCovers(s, id, t)
    ensures var s' := AfterUndo(s, m, withdrawn); Safe(s') && FilesShaped(s') && MemoryCovers(s', id, t)
  {
  }

  lemma {:induction false} UndoFailedCovers(id: string, s: Shared, t: Thread, k: nat, withdrawn: bool, message: string, pc: Pc)
    requires MemoryCovers(s, id, t) && k < |t.memory.mutations|
    ensures var m := t.memory.mutations[k];
            MemoryCovers(AfterUndo(s, m, withdrawn), id,
              Thread(pc, t.plan, t.memory.(mutations := t.memory.mutations[k := m.(error := message)])))
  {
    var m := t.memory.mutations[k];
    var s' := AfterUndo(s, m, withdrawn);
    var memory := t.memory.(mutations := t.memory.mutations[k := m.(error := message)]);
    forall r | r in s'.held && s'.held[r] == id
      ensures Claims(s.tracked, memory, r)
    {
      ClaimsKept(s.tracked, t.memory, memory, r);
    }
  }

  lemma {:induction false} ScanSafe(id: string, s: Shared, t: Thread, e: Event)
    requires Safe(s) && FilesShaped(s) && ThreadInv(s, id, t) && t.pc.Scan? && Fire(id, Config(s, t), e).Some?
    ensures var d := Fire(id, Config(s, t), e).value;
            Safe(d.shared) && FilesShaped(d.shared) && ThreadInv(d.shared, id, d.thread)
  {
    hide Safe, FilesShaped;
    var todo, failed := t.pc.todo, t.pc.failed;
    if todo == 0 {
      CloseSafe(id, s, t, e);
    } else if e.OwnedReturned? && e.answer == No {
      MarkUndoneSafe(id, s, t, todo - 1, todo, failed);
    }
  }

  lemma {:induction false} CloseSafe(id: string, s: Shared, t: Thread, e: Event)
    requires Safe(s) && FilesShaped(s) && ThreadInv(s, id, t) && t.pc.Scan? && t.pc.todo == 0
    requires Fire(id, Config(s, t), e).Some?
    ensures var d := Fire(id, Config(s, t), e).value;
            Safe(d.shared) && FilesShaped(d.shared) && ThreadInv(d.shared, id, d.thread)
  {
    if e.RemoveReturned? {
      NothingInPlace(s, id, t);
    } else {
      SaveSafe(s, id, t, t.memory.(state := Broken), e.saved);
    }
  }

  /** With nothing left to undo, nothing is in place for the transaction. */
  lemma {:induction false} NothingInPlace(s: Shared, id: string, t: Thread)
    requires MemoryCovers(s, id, t) && NoneLive(t.memory.mutations, 0)
    ensures forall r :: r in s.held ==> s.held[r] != id
  {
    forall r
      ensures !Claims(s.tracked, t.memory, r)
    {
    }
  }

  /** Every event of a transaction keeps the write-ahead property and its own
      invariant. */
  lemma {:induction false} FireSafe(id: string, s: Shared, t: Thread, e: Event)
    requires Safe(s) && FilesShaped(s) && ThreadInv(s, id, t) && Fire(id, Config(s, t), e).Some?
    ensures var d := Fire(id, Config(s, t), e).value;
            Safe(d.shared) && FilesShaped(d.shared) && ThreadInv(d.shared, id, d.thread)
  {
    if Straight(t.pc) {
      ForwardSafe(id, s, t, e);
    } else {
      BackwardSafe(id, s, t, e);
    }
  }

  predicate Straight(pc: Pc) {
    pc == NextMutation || pc == ApplyPending || pc == SaveApplied || pc == SaveFailed || pc == Established
  }

  lemma {:induction false} ForwardSafe(id: string, s: Shared, t: Thread, e: Event)
    requires Safe(s) && FilesShaped(s) && ThreadInv(s, id, t) && Fire(id, Config(s, t), e).Some? && Straight(t.pc)
    ensures var d := Fire(id, Config(s, t), e).value;
            Safe(d.shared) && FilesShaped(d.shared) && ThreadInv(d.shared, id, d.thread)
  {
    match t.pc
    case NextMutation =>
      match e {
        case Appended(identifier, o) => AppendSafe(id, s, t, identifier, o);
        case Resaved(o) => SaveSafe(s, id, t, t.memory.(state := Active), o);
        case _ =>
      }
    case ApplyPending => ApplySafe(id, s, t, e.ok, e.placed, e.message);
    case SaveApplied => SaveSafe(s, id, t, t.memory, e.saved);
    case SaveFailed => SaveSafe(s, id, t, t.memory, e.saved);
    case _ =>
  }

  lemma {:induction false} BackwardSafe(id: string, s: Shared, t: Thread, e: Event)
    requires Safe(s) && FilesShaped(s) && ThreadInv(s, id, t) && Fire(id, Config(s, t), e).Some? && !Straight(t.pc)
    ensures var d := Fire(id, Config(s, t), e).value;
            Safe(d.shared) && FilesShaped(d.shared) && ThreadInv(d.shared, id, d.thread)
  {
    match t.pc
    case StartRollback => SaveSafe(s, id, t, t.memory.(state := RollingBack), e.saved);
    case Scan(_, _) => ScanSafe(id, s, t, e);
    case CallUndo(todo, failed) => UndoSafe(id, s, t, todo, failed, e.ok, e.withdrawn, e.message);
    case SaveUndone(_, _) => SaveSafe(s, id, t, t.memory, e.saved);
    case Settled(_) =>
  }

  /** Events of one transaction do not disturb another one, even when both name
      the same resource. */
  lemma {:induction false} FireFrames(id: string, s: Shared, t: Thread, e: Event, other: string, u: Thread)
    requires id != other && ThreadInv(s, other, u) && Fire(id, Config(s, t), e).Some?
    ensures ThreadInv(Fire(id, Config(s, t), e).value.shared, other, u)
  {
    var s' := Fire(id, Config(s, t), e).value.shared;
    assert s'.tracked == s.tracked;
    assert other in s'.files <==> other in s.files;
    assert other in s.files ==> s'.files[other] == s.files[other];
    assert forall r :: r in s'.held && s'.held[r] == other ==> r in s.held && s.held[r] == other;
  }

  // ---- All runs of the whole system ----

  ghost predicate WorldInv(w: World) {
    && Safe(w.shared) && FilesShaped(w.shared)
    && (forall id :: id in w.threads ==> ThreadInv(w.shared, id, w.threads[id]))
    && (w.mode == Down ==> w.threads == map[])
    && (w.mode == Recovering ==> w.shared.files.Keys <= w.threads.Keys)
  }

  lemma {:induction false} FreshHoldsNothing(s: Shared, id: string)
    requires Safe(s) && id !in s.files
    ensures forall r :: r in s.held ==> s.held[r] != id
  {
  }

  lemma {:induction false} ActKeepsInv(w: World, id: string, e: Event)
    requires WorldInv(w) && Advance(w, Act(id, e)).Some?
    ensures WorldInv(Advance(w, Act(id, e)).value)
  {
    var t := w.threads[id];
    var d := Fire(id, Config(w.shared, t), e).value;
    FireSafe(id, w.shared, t, e);
    FireFiles(id, Config(w.shared, t), e);
    forall other | other in w.threads && other != id
      ensures ThreadInv(d.shared, other, w.threads[other])
    {
      FireFrames(id, w.shared, t, e, other, w.threads[other]);
    }
  }

  lemma {:induction false} BeginKeepsInv(w: World, step: Step)
    requires WorldInv(w) && step.Begin? && Advance(w, step).Some?
    ensures WorldInv(Advance(w, step).value)
  {
    var w' := Advance(w, step).value;
    FreshHoldsNothing(w.shared, step.id);
    forall other | other in w.threads
      ensures ThreadInv(w'.shared, other, w.threads[other])
    {
    }
  }

  lemma {:induction false} RecoveryKeepsInv(w: World, listed: map<string, Thread>)
    requires WorldInv(w) && Advance(w, StartRecovery(listed)).Some?
    ensures WorldInv(Advance(w, StartRecovery(listed)).value)
  {
    var w' := Advance(w, StartRecovery(listed)).value;
    forall id | id in w'.threads
      ensures ThreadInv(w'.shared, id, w'.threads[id])
    {
    }
  }

  lemma {:induction false} AdvanceKeepsInv(w: World, step: Step)
    requires WorldInv(w) && Advance(w, step).Some?
    ensures WorldInv(Advance(w, step).value)
  {
    match step
    case Begin(_, _, _, _) => BeginKeepsInv(w, step);
    case Act(id, e) => ActKeepsInv(w, id, e);
    case RoutesWithdrawn(resources) =>
    case Crash =>
    case StartRecovery(listed) => RecoveryKeepsInv(w, listed);
    case FinishRecovery =>
  }

  /** A transaction only ever writes or removes its own file. */
  lemma {:induction false} FireFiles(id: string, c: Config, e: Event)
    requires Fire(id, c, e).Some?
    ensures Fire(id, c, e).value.shared.files.Keys <= c.shared.files.Keys + {id}
    ensures forall other :: other in c.shared.files && other != id ==>
              other in Fire(id, c, e).value.shared.files && Fire(id, c, e).value.shared.files[other] == c.shared.files[other]
  {
  }

  lemma {:induction false} RunKeepsInv(w: World, steps: seq<Step>)
    requires WorldInv(w) && Run(w, steps).Some?
    ensures WorldInv(Run(w, steps).value)
    decreases |steps|
  {
    if steps != [] {
      RunKeepsInv(w, steps[..|steps| - 1]);
      AdvanceKeepsInv(Run(w, steps[..|steps| - 1]).value, steps[|steps| - 1]);
    }
  }

  /** In every state that any run reaches -- any interleaving of activations and
      deactivations, any outcome of any call, a crash between any two steps --
      each resource in place is named by a journal file mutation that is not
      undone, and a file in preparation has at most its last mutation in doubt. */
  lemma {:induction false} WriteAheadSafety(w: World, steps: seq<Step>)
    requires Initial(w) && Run(w, steps).Some?
    ensures var v := Run(w, steps).value;
            && (forall r :: r in v.shared.held ==>
                  exists id, j: nat :: id in v.shared.files && ClaimsAt(v.shared.tracked, v.shared.files[id], j, r))
            && (forall id :: id in v.shared.files && v.shared.files[id].state == Preparing ==>
                  OneInDoubt(v.shared.files[id].mutations))
            && (forall id :: id in v.shared.files && v.shared.files[id].state == Active ==>
                  AllApplied(v.shared.files[id].mutations))
  {
    RunKeepsInv(w, steps);
    var v := Run(w, steps).value;
    forall r | r in v.shared.held
      ensures exists id, j: nat :: id in v.shared.files && ClaimsAt(v.shared.tracked, v.shared.files[id], j, r)
    {
      var j: nat :| ClaimsAt(v.shared.tracked, v.shared.files[v.shared.held[r]], j, r);
    }
  }

  /** The pending record is on disk, naming the mutation as its last one, at
      every point of every run where the backend is asked to apply it. */
  lemma {:induction false} JournaledBeforeApply(w: World, steps: seq<Step>, id: string, ok: bool, placed: bool, message: string)
    requires Initial(w) && Run(w, steps + [Act(id, ApplyReturned(ok, placed, message))]).Some?
    ensures var v := Run(w, steps).value;
            && id in v.shared.files && id in v.threads
            && var ms := v.shared.files[id].mutations;
               && ms == v.threads[id].memory.mutations && |ms| > 0 && ms[|ms| - 1].state == Pending
               && |ms| <= |v.threads[id].plan| && SameTarget(ms[|ms| - 1], v.threads[id].plan[|ms| - 1])
  {
    assert (steps + [Act(id, ApplyReturned(ok, placed, message))])[..|steps|] == steps;
    RunKeepsInv(w, steps);
    var v := Run(w, steps).value;
    AppliesPending(id, Config(v.shared, v.threads[id]), ApplyReturned(ok, placed, message));
    assert ThreadInv(v.shared, id, v.threads[id]);
  }

  lemma {:induction false} AppliesPending(id: string, c: Config, e: Event)
    requires e.ApplyReturned? && Fire(id, c, e).Some?
    ensures c.thread.pc == ApplyPending
  {
  }

  /** Recovery converges: whenever Recover lets the helper start serving, after
      whatever crashes, the journal is empty and nothing is in place. */
  lemma {:induction false} ServingStartsClean(w: World, steps: seq<Step>)
    requires Initial(w) && Run(w, steps + [FinishRecovery]).Some?
    ensures var v := Run(w, steps + [FinishRecovery]).value;
            v.mode == Serving && v.shared.files == map[] && v.shared.held == map[]
  {
    assert (steps + [FinishRecovery])[..|steps|] == steps;
    RunKeepsInv(w, steps);
    FinishedRecoveryClean(Run(w, steps).value);
  }

  lemma {:induction false} FinishedRecoveryClean(w: World)
    requires WorldInv(w) && Advance(w, FinishRecovery).Some?
    ensures w.shared.files == map[] && w.shared.held == map[]
  {
    forall id
      ensures id !in w.shared.files
    {
      assert id in w.shared.files ==> id in w.threads;
    }
    assert w.shared.files == map[];
    assert w.shared.held == map[];
  }
}
