/** Complete runs of one transaction by itself: activation is all or nothing,
    rollback attempts every live mutation exactly once and in reverse order. */
module WalRuns {
  import opened Wrappers
  import opened EngineTypes
  import opened WalMachine
  import opened WalSafety

  /** Resources of the kinds that put anything in place. */
  ghost function Footprint(tracked: set<MutationKind>, ms: seq<Mutation>): set<string> {
    set m | m in ms && m.kind in tracked :: m.resource
  }

  lemma {:induction false} ExecStep(id: string, c: Config, es: seq<Event>, d: Config, e: Event)
    requires Exec(id, c, es) == Some(d)
    ensures Exec(id, c, es + [e]) == Fire(id, d, e)
  {
    assert (es + [e])[..|es|] == es;
  }

  // ---- Runs in a record of calls ----

  /** The calls recorded after `base` are a run of the transaction, without a
      deactivation, from `start` to `d`. */
  ghost predicate Ran(id: string, start: Config, base: seq<Event>, events: seq<Event>, d: Config) {
    base <= events && NoDeactivation(events[|base|..]) && Exec(id, start, events[|base|..]) == Some(d)
  }

  lemma {:induction false} RanNothing(id: string, start: Config, base: seq<Event>)
    ensures Ran(id, start, base, base, start)
  {
  }

  lemma {:induction false} RanNext(id: string, start: Config, base: seq<Event>, events: seq<Event>, d: Config, e: Event, next: Config)
    requires Ran(id, start, base, events, d) && Fire(id, d, e) == Some(next) && e != DeactivateCalled
    ensures Ran(id, start, base, events + [e], next)
  {
    hide Exec, Fire;
    assert (events + [e])[|base|..] == events[|base|..] + [e];
    ExecStep(id, start, events[|base|..], d, e);
  }

  lemma {:induction false} RanOn(id: string, start: Config, base: seq<Event>, middle: seq<Event>, m: Config, events: seq<Event>, d: Config)
    requires Ran(id, start, base, middle, m) && Ran(id, m, middle, events, d)
    ensures Ran(id, start, base, events, d)
  {
    hide Exec, Fire;
    assert events[|base|..] == middle[|base|..] + events[|middle|..];
    ExecConcat(id, start, middle[|base|..], m, events[|middle|..]);
  }

  // ---- The single calls ----

  lemma {:induction false} SkipFires(id: string, d: Config)
    requires d.thread.pc.Scan? && 0 < d.thread.pc.todo <= |d.thread.memory.mutations|
    requires !Live(d.thread.memory.mutations[d.thread.pc.todo - 1])
    ensures Fire(id, d, Skipped(d.thread.pc.todo - 1))
              == Some(d.(thread := d.thread.(pc := Scan(d.thread.pc.todo - 1, d.thread.pc.failed))))
  {
  }

  function Appending(c: Config, identifier: string, o: SaveOutcome): Config
    requires |c.thread.memory.mutations| < |c.thread.plan|
  {
    var ms := c.thread.memory.mutations;
    var memory := c.thread.memory.(mutations := ms + [NewMutation(c.thread.plan[|ms|], identifier)]);
    Config(WithSave(c.shared, memory, c.thread.memory.id, o),
           Thread(if o == Saved then ApplyPending else StartRollback, c.thread.plan, memory))
  }

  lemma {:induction false} AppendFires(id: string, d: Config, identifier: string, o: SaveOutcome)
    requires d.thread.pc == NextMutation && d.thread.memory.id == id && |d.thread.memory.mutations| < |d.thread.plan|
    ensures Fire(id, d, Appended(identifier, o)) == Some(Appending(d, identifier, o))
  {
  }

  lemma {:induction false} NoIdentifierFires(id: string, d: Config)
    requires d.thread.pc == NextMutation
    requires |d.thread.memory.mutations| < |d.thread.plan| && d.thread.plan[|d.thread.memory.mutations|].id == ""
    ensures Fire(id, d, IdentifierFailed) == Some(d.(thread := d.thread.(pc := StartRollback)))
  {
  }

  lemma {:induction false} CompleteFires(id: string, d: Config, o: SaveOutcome)
    requires d.thread.pc == NextMutation && |d.thread.memory.mutations| >= |d.thread.plan|
    ensures var memory := d.thread.memory.(state := Active);
            Fire(id, d, Resaved(o))
              == Some(Config(WithSave(d.shared, memory, id, o),
                             Thread(if o == Saved then Established else StartRollback, d.thread.plan, memory)))
  {
  }

  lemma {:induction false} ApplyFires(id: string, d: Config, ok: bool, placed: bool, message: string)
    requires d.thread.pc == ApplyPending && |d.thread.memory.mutations| > 0 && (ok ==> placed)
    ensures var ms := d.thread.memory.mutations; var m := ms[|ms| - 1];
            Fire(id, d, ApplyReturned(ok, placed, message))
              == Some(Config(AfterApply(d.shared, m, id, placed),
                             Thread(if ok then SaveApplied else SaveFailed, d.thread.plan,
                                    d.thread.memory.(mutations := if ok then SetLast(ms, Applied, m.error) else SetLast(ms, Failed, message)))))
  {
  }

  lemma {:induction false} RollbackFires(id: string, d: Config, o: SaveOutcome)
    requires d.thread.pc == StartRollback
    ensures var memory := d.thread.memory.(state := RollingBack);
            Fire(id, d, Resaved(o))
              == Some(Config(WithSave(d.shared, memory, id, o), Thread(Scan(|memory.mutations|, false), d.thread.plan, memory)))
  {
  }

  lemma {:induction false} ExecConcat(id: string, c: Config, es: seq<Event>, d: Config, fs: seq<Event>)
    requires Exec(id, c, es) == Some(d)
    ensures Exec(id, c, es + fs) == Exec(id, d, fs)
    decreases |fs|
  {
    if fs == [] {
      assert es + fs == es;
    } else {
      ExecConcat(id, c, es, d, fs[..|fs| - 1]);
      assert (es + fs)[..|es + fs| - 1] == es + fs[..|fs| - 1];
    }
  }

  function Acts(id: string, es: seq<Event>): seq<Step> {
    seq(|es|, k requires 0 <= k < |es| => Act(id, es[k]))
  }

  /** A run of one transaction by itself is one run of the whole system, while
      the helper serves and, for a rollback, also while it recovers. */
  lemma {:induction false} SoloIsRun(w: World, id: string, es: seq<Event>, d: Config)
    requires w.mode != Down && id in w.threads && (w.mode == Serving || NoDeactivation(es))
    requires Exec(id, Config(w.shared, w.threads[id]), es) == Some(d)
    ensures Run(w, Acts(id, es)) == Some(w.(shared := d.shared, threads := w.threads[id := d.thread]))
    decreases |es|
  {
    hide Fire, Advance;
    if es == [] {
      assert w.threads[id := w.threads[id]] == w.threads;
    } else {
      var init := es[..|es| - 1];
      var u := Exec(id, Config(w.shared, w.threads[id]), init).value;
      SoloIsRun(w, id, init, u);
      assert Acts(id, es)[..|es| - 1] == Acts(id, init);
      ActAdvances(w, id, u, es[|es| - 1], d);
    }
  }

  lemma {:induction false} ActAdvances(w: World, id: string, u: Config, e: Event, d: Config)
    requires w.mode != Down && id in w.threads && Fire(id, u, e) == Some(d) && (e == DeactivateCalled ==> w.mode == Serving)
    ensures Advance(w.(shared := u.shared, threads := w.threads[id := u.thread]), Act(id, e))
              == Some(w.(shared := d.shared, threads := w.threads[id := d.thread]))
  {
    assert w.threads[id := u.thread][id := d.thread] == w.threads[id := d.thread];
  }

  lemma {:induction false} ExecSafe(id: string, c: Config, es: seq<Event>)
    requires Safe(c.shared) && FilesShaped(c.shared) && ThreadInv(c.shared, id, c.thread)
    requires Exec(id, c, es).Some?
    ensures var d := Exec(id, c, es).value;
            Safe(d.shared) && FilesShaped(d.shared) && ThreadInv(d.shared, id, d.thread)
    decreases |es|
  {
    if es != [] {
      ExecSafe(id, c, es[..|es| - 1]);
      var d := Exec(id, c, es[..|es| - 1]).value;
      FireSafe(id, d.shared, d.thread, es[|es| - 1]);
    }
  }

  // ---- All or nothing ----

  /** Mutation `m` has done what an applied, or an undone, mutation does. */
  predicate Settles(s: Shared, id: string, m: Mutation) {
    m.kind in s.tracked ==>
      && (m.state == Applied ==> m.resource in s.held && s.held[m.resource] == id)
      && (!Live(m) ==> m.resource !in s.held)
  }

  ghost predicate AtomicInv(id: string, s0: Shared, plan: seq<Mutation>, c: Config) {
    var s, t := c.shared, c.thread;
    var ms := t.memory.mutations;
    && s.tracked == s0.tracked && t.plan == plan
    && PcInv(s, id, t) && Follows(ms, plan)
    && s.files - {id} == s0.files - {id}
    && (forall r :: r !in Footprint(s.tracked, ms) ==>
          (r in s.held <==> r in s0.held) && (r in s.held ==> s.held[r] == s0.held[r]))
    && AllSettle(id, c)
  }

  /** An event keeps the mutations it finds, perhaps in another state, and
      moves only resources they name. */
  lemma {:induction false} FireMoves(id: string, c: Config, e: Event)
    requires Fire(id, c, e).Some?
    ensures var d := Fire(id, c, e).value;
            var ms, ns := c.thread.memory.mutations, d.thread.memory.mutations;
            && d.shared.tracked == c.shared.tracked && d.thread.plan == c.thread.plan
            && |ms| <= |ns|
            && (forall j :: 0 <= j < |ms| ==> ns[j] == ms[j].(state := ns[j].state, error := ns[j].error))
            && (d.shared.held == c.shared.held
                || exists j :: 0 <= j < |ns| && ns[j].kind in c.shared.tracked
                     && d.shared.held - {ns[j].resource} == c.shared.held - {ns[j].resource})
  {
    var d := Fire(id, c, e).value;
    var ms, ns := c.thread.memory.mutations, d.thread.memory.mutations;
    if c.thread.pc == ApplyPending && d.shared.held != c.shared.held {
      assert d.shared.held - {ns[|ns| - 1].resource} == c.shared.held - {ns[|ns| - 1].resource};
    } else if c.thread.pc.CallUndo? && d.shared.held != c.shared.held {
      assert d.shared.held - {ns[e.index].resource} == c.shared.held - {ns[e.index].resource};
    }
  }

  lemma {:induction false} FootprintGrows(tracked: set<MutationKind>, ms: seq<Mutation>, ns: seq<Mutation>)
    requires |ms| <= |ns|
    requires forall j :: 0 <= j < |ms| ==> ns[j].kind == ms[j].kind && ns[j].resource == ms[j].resource
    ensures Footprint(tracked, ms) <= Footprint(tracked, ns)
  {
    forall r | r in Footprint(tracked, ms)
      ensures r in Footprint(tracked, ns)
    {
      var j :| 0 <= j < |ms| && ms[j].kind in tracked && ms[j].resource == r;
      assert ns[j] in ns;
    }
  }

  /** What stands outside the footprint does not move. */
  lemma {:induction false} OutsideUntouched(id: string, c: Config, e: Event, r: string)
    requires Fire(id, c, e).Some?
    requires r !in Footprint(c.shared.tracked, Fire(id, c, e).value.thread.memory.mutations)
    ensures r !in Footprint(c.shared.tracked, c.thread.memory.mutations)
    ensures var held := Fire(id, c, e).value.shared.held;
            (r in held <==> r in c.shared.held) && (r in held ==> held[r] == c.shared.held[r])
  {
    FireMoves(id, c, e);
    var d := Fire(id, c, e).value;
    var ns := d.thread.memory.mutations;
    FootprintGrows(c.shared.tracked, c.thread.memory.mutations, ns);
    if d.shared.held != c.shared.held {
      var j :| 0 <= j < |ns| && ns[j].kind in c.shared.tracked
        && d.shared.held - {ns[j].resource} == c.shared.held - {ns[j].resource};
      assert ns[j] in ns;
      var x, y := d.shared.held - {ns[j].resource}, c.shared.held - {ns[j].resource};
      assert (r in x <==> r in d.shared.held) && (r in y <==> r in c.shared.held);
      assert r in x ==> x[r] == d.shared.held[r] && y[r] == c.shared.held[r];
    }
  }

  ghost predicate AllSettle(id: string, c: Config) {
    var ms := c.thread.memory.mutations;
    && (Straight(c.thread.pc) ==> forall j :: 0 <= j < |ms| ==> Live(ms[j]) && Settles(c.shared, id, ms[j]))
    && (!Straight(c.thread.pc) ==> forall j :: 0 <= j < |ms| && !Live(ms[j]) ==> Settles(c.shared, id, ms[j]))
  }

  lemma {:induction false} FireSettles(id: string, c: Config, e: Event)
    requires AllSettle(id, c) && Fire(id, c, e).Some?
    ensures AllSettle(id, Fire(id, c, e).value)
  {
    var d := Fire(id, c, e).value;
    var ms, ns := c.thread.memory.mutations, d.thread.memory.mutations;
    if c.thread.pc == ApplyPending {
      assert forall j :: 0 <= j < |ms| - 1 ==> ns[j] == ms[j];
    } else if c.thread.pc.CallUndo? {
      UndoSettles(id, c, e);
    } else if c.thread.pc.Scan? {
      hide Settles;
      ScanSettles(id, c, e);
    } else {
      hide Settles;
      assert d.shared.held == c.shared.held;
    }
  }

  lemma {:induction false} UndoSettles(id: string, c: Config, e: Event)
    requires AllSettle(id, c) && c.thread.pc.CallUndo? && Fire(id, c, e).Some?
    ensures AllSettle(id, Fire(id, c, e).value)
  {
    var ms, ns := c.thread.memory.mutations, Fire(id, c, e).value.thread.memory.mutations;
    assert forall j :: 0 <= j < |ms| && j != e.index ==> ns[j] == ms[j];
  }

  lemma {:induction false} ScanSettles(id: string, c: Config, e: Event)
    requires AllSettle(id, c) && c.thread.pc.Scan? && Fire(id, c, e).Some?
    ensures AllSettle(id, Fire(id, c, e).value)
  {
    var ms, ns := c.thread.memory.mutations, Fire(id, c, e).value.thread.memory.mutations;
    if ns != ms {
      assert forall j :: 0 <= j < |ms| && j != e.index ==> ns[j] == ms[j];
    }
  }

  lemma {:induction false} FireFollows(id: string, c: Config, e: Event)
    requires Fire(id, c, e).Some? && Follows(c.thread.memory.mutations, c.thread.plan)
    ensures Follows(Fire(id, c, e).value.thread.memory.mutations, c.thread.plan)
  {
    FireMoves(id, c, e);
    if c.thread.pc == NextMutation && e.Appended? {
    } else {
      assert |Fire(id, c, e).value.thread.memory.mutations| == |c.thread.memory.mutations|;
    }
  }

  lemma {:induction false} FireAtomic(id: string, s0: Shared, plan: seq<Mutation>, c: Config, e: Event)
    requires AtomicInv(id, s0, plan, c) && Safe(c.shared) && FilesShaped(c.shared) && ThreadInv(c.shared, id, c.thread)
    requires Fire(id, c, e).Some?
    ensures AtomicInv(id, s0, plan, Fire(id, c, e).value)
  {
    var d := Fire(id, c, e).value;
    FireSafe(id, c.shared, c.thread, e);
    FireFollows(id, c, e);
    FireMoves(id, c, e);
    FireSettles(id, c, e);
    OtherFiles(id, c, e);
    forall r | r !in Footprint(s0.tracked, d.thread.memory.mutations)
      ensures (r in d.shared.held <==> r in s0.held) && (r in d.shared.held ==> d.shared.held[r] == s0.held[r])
    {
      OutsideUntouched(id, c, e, r);
    }
  }

  lemma {:induction false} OtherFiles(id: string, c: Config, e: Event)
    requires Fire(id, c, e).Some?
    ensures Fire(id, c, e).value.shared.files - {id} == c.shared.files - {id}
  {
    FireFiles(id, c, e);
  }

  lemma {:induction false} ExecAtomic(id: string, s0: Shared, plan: seq<Mutation>, c: Config, es: seq<Event>)
    requires Safe(c.shared) && FilesShaped(c.shared) && ThreadInv(c.shared, id, c.thread)
    requires AtomicInv(id, s0, plan, c) && Exec(id, c, es).Some?
    ensures AtomicInv(id, s0, plan, Exec(id, c, es).value)
    decreases |es|
  {
    if es != [] {
      ExecAtomic(id, s0, plan, c, es[..|es| - 1]);
      ExecSafe(id, c, es[..|es| - 1]);
      FireAtomic(id, s0, plan, Exec(id, c, es[..|es| - 1]).value, es[|es| - 1]);
    }
  }

  /** The state right after a successful Begin. */
  predicate Begun(id: string, s0: Shared, record: Record, plan: seq<Mutation>, c: Config) {
    && id !in s0.files && Blank(record, id)
    && c == Config(s0.(files := s0.files[id := record]), Thread(NextMutation, plan, record))
  }

  lemma {:induction false} BegunHolds(id: string, s0: Shared, record: Record, plan: seq<Mutation>, c: Config)
    requires Safe(s0) && FilesShaped(s0) && Begun(id, s0, record, plan, c)
    ensures Safe(c.shared) && FilesShaped(c.shared) && ThreadInv(c.shared, id, c.thread)
    ensures AtomicInv(id, s0, plan, c)
  {
    assert s0.files[id := record] - {id} == s0.files - {id};
  }

  /** Activation is all or nothing.  Success: exactly the plan's resources are
      added, every mutation is recorded as applied and the record as active.  A
      rollback without an error of its own: of everything that was attempted
      nothing is left, nothing else was touched, and no journal file remains. */
  lemma {:induction false} ActivateAllOrNothing(id: string, s0: Shared, record: Record, plan: seq<Mutation>,
                                                c: Config, es: seq<Event>, d: Config)
    requires Safe(s0) && FilesShaped(s0) && Begun(id, s0, record, plan, c) && Exec(id, c, es) == Some(d)
    ensures d.thread.pc == Established ==>
              && d.shared.held.Keys == s0.held.Keys + Footprint(s0.tracked, plan)
              && (forall r :: r in s0.held && r !in Footprint(s0.tracked, plan) ==> d.shared.held[r] == s0.held[r])
              && d.shared.files == s0.files[id := d.thread.memory]
              && d.thread.memory.state == Active && AllApplied(d.thread.memory.mutations)
              && |d.thread.memory.mutations| == |plan| && Follows(d.thread.memory.mutations, plan)
    ensures d.thread.pc == Settled(false) ==>
              && d.shared.held == s0.held - Footprint(s0.tracked, d.thread.memory.mutations)
              && d.shared.files == s0.files
              && Follows(d.thread.memory.mutations, plan)
    ensures d.thread.pc == Settled(false) && s0.held.Keys !! Footprint(s0.tracked, plan) ==> d.shared == s0
  {
    hide Exec, Fire, Safe, FilesShaped;
    BegunHolds(id, s0, record, plan, c);
    ExecSafe(id, c, es);
    ExecAtomic(id, s0, plan, c, es);
    FootprintOfPlan(s0.tracked, d.thread.memory.mutations, plan);
    if d.thread.pc == Established {
      EstablishedAll(id, s0, plan, d);
    } else if d.thread.pc == Settled(false) {
      SettledNothing(id, s0, plan, d);
      if s0.held.Keys !! Footprint(s0.tracked, plan) {
        assert s0.held - Footprint(s0.tracked, d.thread.memory.mutations) == s0.held;
      }
    }
  }

  lemma {:induction false} EstablishedAll(id: string, s0: Shared, plan: seq<Mutation>, d: Config)
    requires AtomicInv(id, s0, plan, d) && d.thread.pc == Established && id !in s0.files
    ensures d.shared.held.Keys == s0.held.Keys + Footprint(s0.tracked, d.thread.memory.mutations)
    ensures d.shared.files == s0.files[id := d.thread.memory]
  {
    var ms := d.thread.memory.mutations;
    forall r | r in Footprint(s0.tracked, ms)
      ensures r in d.shared.held
    {
      var j :| 0 <= j < |ms| && ms[j].kind in s0.tracked && ms[j].resource == r;
      assert Settles(d.shared, id, ms[j]);
    }
    assert d.shared.files == (d.shared.files - {id})[id := d.shared.files[id]];
    assert s0.files[id := d.thread.memory] == (s0.files - {id})[id := d.thread.memory];
  }

  lemma {:induction false} SettledNothing(id: string, s0: Shared, plan: seq<Mutation>, d: Config)
    requires AtomicInv(id, s0, plan, d) && d.thread.pc == Settled(false) && id !in s0.files
    ensures d.shared.held == s0.held - Footprint(s0.tracked, d.thread.memory.mutations)
    ensures d.shared.files == s0.files
  {
    var ms := d.thread.memory.mutations;
    forall r | r in Footprint(s0.tracked, ms)
      ensures r !in d.shared.held
    {
      var j :| 0 <= j < |ms| && ms[j].kind in s0.tracked && ms[j].resource == r;
      assert Settles(d.shared, id, ms[j]);
    }
    assert d.shared.files == d.shared.files - {id} && s0.files == s0.files - {id};
  }

  lemma {:induction false} FootprintOfPlan(tracked: set<MutationKind>, ms: seq<Mutation>, plan: seq<Mutation>)
    requires Follows(ms, plan)
    ensures Footprint(tracked, ms) <= Footprint(tracked, plan)
    ensures |ms| == |plan| ==> Footprint(tracked, ms) == Footprint(tracked, plan)
  {
    forall r | r in Footprint(tracked, ms)
      ensures r in Footprint(tracked, plan)
    {
      var j :| 0 <= j < |ms| && ms[j].kind in tracked && ms[j].resource == r;
      assert plan[j] in plan;
    }
    if |ms| == |plan| {
      forall r | r in Footprint(tracked, plan)
        ensures r in Footprint(tracked, ms)
      {
        var j :| 0 <= j < |plan| && plan[j].kind in tracked && plan[j].resource == r;
        assert ms[j] in ms;
      }
    }
  }

  // ---- Order and coverage of a rollback ----

  /** The live mutations from the last one down to index `low`. */
  function LiveDown(ms: seq<Mutation>, low: nat): seq<nat>
    decreases |ms| - low
  {
    if low >= |ms| then []
    else LiveDown(ms, low + 1) + (if Live(ms[low]) then [low] else [])
  }

  /** The indices Owned was asked about, in the order of the calls. */
  function Asked(es: seq<Event>): seq<nat> {
    if es == [] then [] else
    Asked(es[..|es| - 1]) + (if es[|es| - 1].OwnedReturned? then [es[|es| - 1].index] else [])
  }

  /** Of those, the ones it confirmed. */
  function Confirmed(es: seq<Event>): seq<nat> {
    if es == [] then [] else
    Confirmed(es[..|es| - 1]) + (if es[|es| - 1].OwnedReturned? && es[|es| - 1].answer == Yes then [es[|es| - 1].index] else [])
  }

  /** The indices Undo was called for, in the order of the calls. */
  function Undoings(es: seq<Event>): seq<nat> {
    if es == [] then [] else
    Undoings(es[..|es| - 1]) + (if es[|es| - 1].UndoReturned? then [es[|es| - 1].index] else [])
  }

  function Removals(es: seq<Event>): nat {
    if es == [] then 0 else Removals(es[..|es| - 1]) + (if es[|es| - 1].RemoveReturned? then 1 else 0)
  }

  /** A failure of Owned or Undo for mutation `j`. */
  predicate TroubleAt(e: Event, j: nat) {
    e == OwnedReturned(j, Unknown) || (e.UndoReturned? && e.index == j && !e.ok)
  }

  predicate Trouble(es: seq<Event>, j: nat) {
    exists k :: 0 <= k < |es| && TroubleAt(es[k], j)
  }

  predicate AnyTrouble(es: seq<Event>) {
    exists k :: 0 <= k < |es| && es[k] != RemoveReturned(false, true) && es[k] != RemoveReturned(false, false) && Blocking(es[k])
  }

  predicate Decreasing(xs: seq<nat>) {
    forall i, j :: 0 <= i < j < |xs| ==> xs[i] > xs[j]
  }

  lemma {:induction false} LiveDownDecreases(ms: seq<Mutation>, low: nat)
    ensures Decreasing(LiveDown(ms, low))
    ensures forall k :: k in LiveDown(ms, low) <==> low <= k < |ms| && Live(ms[k])
    decreases |ms| - low
  {
    if low < |ms| {
      LiveDownDecreases(ms, low + 1);
      var rest := LiveDown(ms, low + 1);
      assert forall k :: 0 <= k < |rest| ==> rest[k] in rest;
    }
  }

  /** The state mutation `j` is in after rollback has dealt with it. */
  predicate DealtWith(before: Mutation, after: Mutation, trouble: bool) {
    if !Live(before) then after == before
    else if trouble then after.state == before.state
    else after == before.(state := Undone, error := "")
  }

  predicate NoDeactivation(es: seq<Event>) {
    forall k :: 0 <= k < |es| ==> es[k] != DeactivateCalled
  }

  ghost predicate RollbackInv(ms0: seq<Mutation>, es: seq<Event>, t: Thread) {
    var ms := t.memory.mutations;
    && |ms| == |ms0|
    && match t.pc
       case StartRollback => es == [] && ms == ms0
       case Scan(todo, failed) =>
         && todo <= |ms| && ms[..todo] == ms0[..todo] && Asked(es) == LiveDown(ms0, todo) && Undoings(es) == Confirmed(es)
         && Reported(ms0, ms, es, todo) && failed == AnyTrouble(es) && Removals(es) == 0
       case CallUndo(todo, failed) =>
         && 0 < todo <= |ms| && Live(ms[todo - 1]) && ms[..todo] == ms0[..todo] && Asked(es) == LiveDown(ms0, todo - 1)
         && Undoings(es) + [todo - 1] == Confirmed(es)
         && Reported(ms0, ms, es, todo) && failed == AnyTrouble(es) && Removals(es) == 0
       case SaveUndone(todo, failed) =>
         && 0 < todo <= |ms| && ms[..todo - 1] == ms0[..todo - 1] && Asked(es) == LiveDown(ms0, todo - 1)
         && Undoings(es) == Confirmed(es)
         && Reported(ms0, ms, es, todo - 1) && failed == AnyTrouble(es) && Removals(es) == 0
       case Settled(failed) =>
         && Asked(es) == LiveDown(ms0, 0) && Undoings(es) == Confirmed(es)
         && Reported(ms0, ms, es, 0)
         && Removals(es) == (if AnyTrouble(es) then 0 else 1)
         && failed == exists k :: 0 <= k < |es| && Blocking(es[k])
       case _ => false
  }

  ghost predicate Reported(ms0: seq<Mutation>, ms: seq<Mutation>, es: seq<Event>, low: nat)
    requires |ms| == |ms0|
  {
    && (forall j: nat :: low <= j < |ms| ==> DealtWith(ms0[j], ms[j], Trouble(es, j)))
    && (forall j: nat :: j < low ==> !Trouble(es, j))
  }

  lemma {:induction false} TroubleSnoc(es: seq<Event>, e: Event)
    ensures forall j: nat :: Trouble(es + [e], j) <==> Trouble(es, j) || TroubleAt(e, j)
    ensures AnyTrouble(es + [e]) <==> AnyTrouble(es) || (Blocking(e) && !e.RemoveReturned?)
    ensures (exists k :: 0 <= k < |es + [e]| && Blocking((es + [e])[k])) <==>
            (exists k :: 0 <= k < |es| && Blocking(es[k])) || Blocking(e)
  {
    var fs := es + [e];
    assert fs[|es|] == e;
    forall j: nat
      ensures Trouble(fs, j) <==> Trouble(es, j) || TroubleAt(e, j)
    {
      if Trouble(es, j) {
        var k :| 0 <= k < |es| && TroubleAt(es[k], j);
        assert fs[k] == es[k];
      }
    }
    if AnyTrouble(es) {
      var k :| 0 <= k < |es| && es[k] != RemoveReturned(false, true) && es[k] != RemoveReturned(false, false) && Blocking(es[k]);
      assert fs[k] == es[k];
    }
    if exists k :: 0 <= k < |es| && Blocking(es[k]) {
      var k :| 0 <= k < |es| && Blocking(es[k]);
      assert fs[k] == es[k];
    }
  }

  lemma {:induction false} NoRemovalNoBlock(es: seq<Event>)
    requires Removals(es) == 0
    ensures AnyTrouble(es) <==> exists k :: 0 <= k < |es| && Blocking(es[k])
  {
    RemovalCounted(es);
  }

  lemma {:induction false} RemovalCounted(es: seq<Event>)
    requires Removals(es) == 0
    ensures forall k :: 0 <= k < |es| ==> !es[k].RemoveReturned?
  {
    if es != [] {
      RemovalCounted(es[..|es| - 1]);
      forall k | 0 <= k < |es|
        ensures !es[k].RemoveReturned?
      {
        if k < |es| - 1 { assert es[k] == es[..|es| - 1][k]; }
      }
    }
  }

  lemma {:induction false} FireRollback(id: string, ms0: seq<Mutation>, es: seq<Event>, c: Config, e: Event)
    requires RollbackInv(ms0, es, c.thread) && e != DeactivateCalled && Fire(id, c, e).Some?
    ensures RollbackInv(ms0, es + [e], Fire(id, c, e).value.thread)
  {
    assert (es + [e])[..|es|] == es;
    TroubleSnoc(es, e);
    var d := Fire(id, c, e).value;
    var ms, ns := c.thread.memory.mutations, d.thread.memory.mutations;
    match c.thread.pc
    case StartRollback =>
    case Scan(todo, failed) =>
      if todo == 0 {
        NoRemovalNoBlock(es);
      } else {
        ScanRollback(id, ms0, es, c, e);
      }
    case CallUndo(todo, failed) => UndoRollback(id, ms0, es, c, e);
    case SaveUndone(todo, failed) =>
  }

  lemma {:induction false} PrefixDown(ms: seq<Mutation>, ms0: seq<Mutation>, ns: seq<Mutation>, todo: nat)
    requires 0 < todo <= |ms| && |ms| == |ms0| == |ns| && ms[..todo] == ms0[..todo]
    requires forall j :: 0 <= j < todo - 1 ==> ns[j] == ms[j]
    ensures ms[todo - 1] == ms0[todo - 1] && ns[..todo - 1] == ms0[..todo - 1]
  {
    assert ms[todo - 1] == ms[..todo][todo - 1] && ms0[todo - 1] == ms0[..todo][todo - 1];
    forall j | 0 <= j < todo - 1
      ensures ns[j] == ms0[j]
    {
      assert ms[j] == ms[..todo][j] && ms0[j] == ms0[..todo][j];
    }
  }

  lemma {:induction false} CountsSnoc(es: seq<Event>, e: Event)
    ensures Asked(es + [e]) == Asked(es) + (if e.OwnedReturned? then [e.index] else [])
    ensures Confirmed(es + [e]) == Confirmed(es) + (if e.OwnedReturned? && e.answer == Yes then [e.index] else [])
    ensures Undoings(es + [e]) == Undoings(es) + (if e.UndoReturned? then [e.index] else [])
    ensures Removals(es + [e]) == Removals(es) + (if e.RemoveReturned? then 1 else 0)
  {
    assert (es + [e])[..|es|] == es;
  }

  /** The report of the mutations below `todo` grows by one, or not at all. */
  lemma {:induction false} ReportedSnoc(ms0: seq<Mutation>, ms: seq<Mutation>, ns: seq<Mutation>, es: seq<Event>, e: Event,
                                        todo: nat, low: nat)
    requires |ms| == |ns| == |ms0| && Reported(ms0, ms, es, todo) && low <= todo <= low + 1 && todo <= |ms|
    requires forall j :: todo <= j < |ms| ==> ns[j] == ms[j]
    requires forall j: nat :: TroubleAt(e, j) ==> low <= j < todo
    requires low < todo ==> DealtWith(ms0[low], ns[low], TroubleAt(e, low))
    ensures Reported(ms0, ns, es + [e], low)
  {
    hide Trouble, DealtWith;
    TroubleSnoc(es, e);
  }

  lemma {:induction false} ScanRollback(id: string, ms0: seq<Mutation>, es: seq<Event>, c: Config, e: Event)
    requires RollbackInv(ms0, es, c.thread) && c.thread.pc.Scan? && c.thread.pc.todo > 0 && Fire(id, c, e).Some?
    ensures RollbackInv(ms0, es + [e], Fire(id, c, e).value.thread)
  {
    hide Asked, Confirmed, Undoings, Removals, AnyTrouble, Reported;
    CountsSnoc(es, e);
    TroubleSnoc(es, e);
    var todo := c.thread.pc.todo;
    var ms, d := c.thread.memory.mutations, Fire(id, c, e).value.thread;
    PrefixDown(ms, ms0, d.memory.mutations, todo);
    ReportedSnoc(ms0, ms, d.memory.mutations, es, e, todo, if d.pc.CallUndo? then todo else todo - 1);
    assert LiveDown(ms0, todo - 1) == LiveDown(ms0, todo) + (if Live(ms0[todo - 1]) then [todo - 1] else []);
  }

  lemma {:induction false} UndoRollback(id: string, ms0: seq<Mutation>, es: seq<Event>, c: Config, e: Event)
    requires RollbackInv(ms0, es, c.thread) && c.thread.pc.CallUndo? && Fire(id, c, e).Some?
    ensures RollbackInv(ms0, es + [e], Fire(id, c, e).value.thread)
  {
    hide Asked, Confirmed, Undoings, Removals, AnyTrouble, Reported;
    CountsSnoc(es, e);
    TroubleSnoc(es, e);
    var todo := c.thread.pc.todo;
    var ms, d := c.thread.memory.mutations, Fire(id, c, e).value.thread;
    PrefixDown(ms, ms0, d.memory.mutations, todo);
    ReportedSnoc(ms0, ms, d.memory.mutations, es, e, todo, todo - 1);
  }

  lemma {:induction false} ExecRollback(id: string, c: Config, es: seq<Event>, d: Config)
    requires c.thread.pc == StartRollback && NoDeactivation(es) && Exec(id, c, es) == Some(d)
    ensures RollbackInv(c.thread.memory.mutations, es, d.thread)
    decreases |es|
  {
    hide Fire;
    if es != [] {
      hide RollbackInv;
      var init, last := es[..|es| - 1], es[|es| - 1];
      var u := Exec(id, c, init).value;
      ExecRollback(id, c, init, u);
      FireRollback(id, c.thread.memory.mutations, init, u, last);
      assert es == init + [last];
    }
  }

  /** The trouble with a mutation leaves it as it was, with the message of Undo
      if that is what failed. */
  predicate Complained(ms0: seq<Mutation>, ms: seq<Mutation>, e: Event) {
    match e
    case OwnedReturned(j, answer) => answer == Unknown ==> j < |ms| && j < |ms0| && ms[j] == ms0[j]
    case UndoReturned(j, ok, _, message) => !ok ==> j < |ms| && j < |ms0| && ms[j] == ms0[j].(error := message)
    case _ => true
  }

  predicate AllComplained(ms0: seq<Mutation>, ms: seq<Mutation>, es: seq<Event>) {
    forall k :: 0 <= k < |es| ==> Complained(ms0, ms, es[k])
  }

  /** The record says that a rollback is going on, and at the end whether it met
      trouble. */
  predicate StateTold(es: seq<Event>, t: Thread) {
    match t.pc
    case StartRollback => true
    case Settled(_) => t.memory.state == if AnyTrouble(es) then Broken else RollingBack
    case _ => t.memory.state == RollingBack
  }

  lemma {:induction false} FireComplains(id: string, ms0: seq<Mutation>, es: seq<Event>, c: Config, e: Event)
    requires RollbackInv(ms0, es, c.thread) && AllComplained(ms0, c.thread.memory.mutations, es) && StateTold(es, c.thread)
    requires e != DeactivateCalled && Fire(id, c, e).Some?
    ensures AllComplained(ms0, Fire(id, c, e).value.thread.memory.mutations, es + [e])
  {
    hide Asked, Confirmed, Undoings, Removals, LiveDown, AnyTrouble;
    var ms, ns := c.thread.memory.mutations, Fire(id, c, e).value.thread.memory.mutations;
    var pc := c.thread.pc;
    var todo: nat := if pc.Scan? || pc.CallUndo? then pc.todo else if pc.SaveUndone? then pc.todo - 1 else 0;
    assert forall j :: todo <= j < |ms| ==> ns[j] == ms[j];
    forall k | 0 <= k < |es + [e]|
      ensures Complained(ms0, ns, (es + [e])[k])
    {
      if k < |es| {
        OldTrouble(ms0, ms, ns, es, k, todo);
      } else if todo > 0 {
        assert c.thread.pc.Scan? || c.thread.pc.CallUndo? ==> ms[todo - 1] == ms[..todo][todo - 1] == ms0[todo - 1];
      }
    }
  }

  lemma {:induction false} OldTrouble(ms0: seq<Mutation>, ms: seq<Mutation>, ns: seq<Mutation>, es: seq<Event>, k: nat, todo: nat)
    requires |ms0| == |ms| == |ns| && k < |es| && Complained(ms0, ms, es[k])
    requires forall j :: todo <= j < |ms| ==> ns[j] == ms[j]
    requires forall j: nat :: j < todo ==> !Trouble(es, j)
    ensures Complained(ms0, ns, es[k])
  {
    if es[k].OwnedReturned? && es[k].answer == Unknown {
      assert TroubleAt(es[k], es[k].index);
      assert Trouble(es, es[k].index);
    } else if es[k].UndoReturned? && !es[k].ok {
      assert TroubleAt(es[k], es[k].index);
      assert Trouble(es, es[k].index);
    }
  }

  lemma {:induction false} FireTells(id: string, ms0: seq<Mutation>, es: seq<Event>, c: Config, e: Event)
    requires RollbackInv(ms0, es, c.thread) && StateTold(es, c.thread) && e != DeactivateCalled && Fire(id, c, e).Some?
    ensures StateTold(es + [e], Fire(id, c, e).value.thread)
  {
    hide Asked, Confirmed, Undoings, Removals, LiveDown, AnyTrouble, Reported;
    TroubleSnoc(es, e);
  }

  lemma {:induction false} ExecComplains(id: string, c: Config, es: seq<Event>, d: Config)
    requires c.thread.pc == StartRollback && NoDeactivation(es) && Exec(id, c, es) == Some(d)
    ensures AllComplained(c.thread.memory.mutations, d.thread.memory.mutations, es) && StateTold(es, d.thread)
    decreases |es|
  {
    hide Fire, RollbackInv, AllComplained;
    if es != [] {
      var ms0, init, last := c.thread.memory.mutations, es[..|es| - 1], es[|es| - 1];
      var u := Exec(id, c, init).value;
      ExecRollback(id, c, init, u);
      ExecComplains(id, c, init, u);
      assert es == init + [last];
      FireComplains(id, ms0, init, u, last);
      FireTells(id, ms0, init, u, last);
    } else {
      NoComplaints(c.thread.memory.mutations);
    }
  }

  lemma {:induction false} NoComplaints(ms: seq<Mutation>)
    ensures AllComplained(ms, ms, [])
  {
  }

  /** A completed rollback asked Owned about exactly the live mutations, once
      each and from the last to the first, also after earlier failures; it
      called Undo for exactly those confirmed; a mutation is left undone iff its
      own calls did not fail, and otherwise as it was but for the message of Undo;
      Remove was called iff no Owned or Undo failed, and otherwise the record says
      that the transaction failed; and rollback reports an error iff one of its
      calls failed. */
  lemma {:induction false} RollbackOrderAndCoverage(id: string, c: Config, es: seq<Event>, d: Config)
    requires c.thread.pc == StartRollback && NoDeactivation(es) && Exec(id, c, es) == Some(d) && d.thread.pc.Settled?
    ensures var ms0, ms := c.thread.memory.mutations, d.thread.memory.mutations;
            && Asked(es) == LiveDown(ms0, 0) && Decreasing(Asked(es))
            && (forall j: nat :: j in Asked(es) <==> j < |ms0| && Live(ms0[j]))
            && Undoings(es) == Confirmed(es)
            && |ms| == |ms0|
            && (forall j: nat :: j < |ms| && Live(ms0[j]) ==> (ms[j].state == Undone <==> !Trouble(es, j)))
            && (forall j: nat :: j < |ms| && Live(ms0[j]) && !Trouble(es, j) ==> ms[j] == ms0[j].(state := Undone, error := ""))
            && AllComplained(ms0, ms, es)
            && d.thread.memory.state == (if AnyTrouble(es) then Broken else RollingBack)
            && (forall j: nat :: j < |ms| && !Live(ms0[j]) ==> ms[j] == ms0[j])
            && (Removals(es) == if AnyTrouble(es) then 0 else 1)
            && (d.thread.pc.failed <==> exists k :: 0 <= k < |es| && Blocking(es[k]))
  {
    ExecRollback(id, c, es, d);
    ExecComplains(id, c, es, d);
    LiveDownDecreases(c.thread.memory.mutations, 0);
  }
}
