/** What the journal learns, and when (vpntoris-tray/internal/nativeengine/
    manager.go): every outcome of a backend call is written at once. */
module WalJournaling {
  import opened Wrappers
  import opened EngineTypes
  import opened WalMachine
  import opened WalRuns

  /** The calls after which the record has to be saved. */
  predicate Telling(e: Event) {
    e.ApplyReturned? || (e.UndoReturned? && e.ok) || (e.OwnedReturned? && e.answer == No)
  }

  /** What the record then says. */
  predicate Told(e: Event, ms: seq<Mutation>) {
    match e
    case ApplyReturned(ok, _, message) =>
      ms != [] && var m := ms[|ms| - 1]; if ok then m.state == Applied else m.state == Failed && m.error == message
    case UndoReturned(index, _, _, _) => index < |ms| && ms[index].state == Undone && ms[index].error == ""
    case OwnedReturned(index, _) => index < |ms| && ms[index].state == Undone && ms[index].error == ""
    case _ => true
  }

  predicate Saves(pc: Pc) {
    pc.SaveApplied? || pc.SaveFailed? || pc.SaveUndone?
  }

  lemma {:induction false} TellingFires(id: string, c: Config, e: Event)
    requires Telling(e) && Fire(id, c, e).Some?
    ensures var d := Fire(id, c, e).value; Saves(d.thread.pc) && Told(e, d.thread.memory.mutations)
  {
  }

  lemma {:induction false} SavesNext(id: string, c: Config, e: Event)
    requires Saves(c.thread.pc) && Fire(id, c, e).Some?
    ensures e.Resaved?
    ensures var d := Fire(id, c, e).value;
            && d.thread.memory == c.thread.memory
            && (e.saved != NotSaved ==> id in d.shared.files && d.shared.files[id] == c.thread.memory)
  {
  }

  lemma {:induction false} Reached(id: string, c: Config, es: seq<Event>, k: nat)
    requires Exec(id, c, es).Some? && k <= |es|
    ensures Exec(id, c, es[..k]).Some?
    ensures k < |es| ==>
              Exec(id, c, es[..k + 1]).Some? && Exec(id, c, es[..k + 1]) == Fire(id, Exec(id, c, es[..k]).value, es[k])
    decreases |es|
  {
    hide Fire;
    if k == |es| {
      assert es[..k] == es;
    } else {
      var init := es[..|es| - 1];
      assert es[..k] == init[..k];
      Reached(id, c, init, k);
      if k < |init| {
        assert es[..k + 1] == init[..k + 1];
      } else {
        assert es[..k] == init && es[..k + 1] == es;
      }
    }
  }

  /** In every run of a transaction each result of Apply, each successful Undo and
      each denial of Owned is in the record when the next call is made, and that
      call is the save of this record; no transaction rests before it.  Once a
      save took effect a crash finds the result on disk. */
  lemma {:induction false} SavedAtOnce(id: string, c: Config, es: seq<Event>, d: Config, k: nat)
    requires Exec(id, c, es) == Some(d) && k < |es| && Telling(es[k])
    ensures d.thread.pc == Established || d.thread.pc.Settled? ==> k + 1 < |es|
    ensures k + 1 < |es| ==>
              && es[k + 1].Resaved? && Exec(id, c, es[..k + 2]).Some?
              && var after := Exec(id, c, es[..k + 2]).value;
                 && Told(es[k], after.thread.memory.mutations)
                 && (es[k + 1].saved != NotSaved ==> id in after.shared.files && after.shared.files[id] == after.thread.memory)
  {
    hide Fire, Told;
    Reached(id, c, es, k);
    TellingFires(id, Exec(id, c, es[..k]).value, es[k]);
    if k + 1 < |es| {
      Reached(id, c, es, k + 1);
      SavesNext(id, Exec(id, c, es[..k + 1]).value, es[k + 1]);
    } else {
      assert es[..k + 1] == es;
    }
  }

  lemma {:induction false} MarkFires(id: string, c: Config, e: Event)
    requires c.thread.pc == StartRollback && Fire(id, c, e).Some?
    ensures e.Resaved?
    ensures var d := Fire(id, c, e).value;
            && d.thread.memory == c.thread.memory.(state := RollingBack)
            && (e.saved != NotSaved ==> id in d.shared.files && d.shared.files[id] == d.thread.memory)
            && d.shared.held == c.shared.held
  {
  }

  /** Before anything is undone the record is marked as rolling back and saved,
      whatever the save does. */
  lemma {:induction false} MarkedFirst(id: string, c: Config, es: seq<Event>, d: Config)
    requires c.thread.pc == StartRollback && Exec(id, c, es) == Some(d) && es != []
    ensures es[0].Resaved? && Exec(id, c, es[..1]).Some?
    ensures var first := Exec(id, c, es[..1]).value;
            && first.thread.memory == c.thread.memory.(state := RollingBack) && first.shared.held == c.shared.held
            && (es[0].saved != NotSaved ==> id in first.shared.files && first.shared.files[id] == first.thread.memory)
  {
    hide Fire;
    Reached(id, c, es, 0);
    MarkFires(id, c, es[0]);
  }
}
