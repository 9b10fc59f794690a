/** Interleaved transactions and shared resources: what an established
    transaction put in place stays there unless another transaction has the same
    resource live at the same time. */
module WalSharing {
  import opened Wrappers
  import opened EngineTypes
  import opened WalMachine
  import opened WalSafety
  import opened WalRuns
  import opened WalRecovery
  import opened WalProgress

  /** While `id` has a live mutation for `r`, no other transaction has one.
      Transactions that never named `r`, or have undone what they did about it,
      do not contest it. */
  ghost predicate Uncontested(w: World, id: string, r: string) {
    id in w.threads && Claims(w.shared.tracked, w.threads[id].memory, r) ==>
      forall other :: other in w.threads && other != id ==> !Claims(w.shared.tracked, w.threads[other].memory, r)
  }

  /** In every state that the steps leave behind. */
  ghost predicate NeverContested(u: World, steps: seq<Step>, id: string, r: string) {
    forall k :: 0 <= k < |steps| && Run(u, steps[..k]).Some? ==> Uncontested(Run(u, steps[..k]).value, id, r)
  }

  predicate AppliedAt(tracked: set<MutationKind>, ms: seq<Mutation>, j: nat, r: string) {
    j < |ms| && ms[j].state == Applied && ms[j].kind in tracked && ms[j].resource == r
  }

  predicate HeldFor(s: Shared, id: string, r: string) {
    r in s.held && s.held[r] == id
  }

  /** While `id` is not being rolled back, what it applied to `r` is in place on
      its behalf. */
  ghost predicate KeepsPlace(w: World, id: string, r: string) {
    id in w.threads && Straight(w.threads[id].pc) ==>
      forall j: nat :: AppliedAt(w.shared.tracked, w.threads[id].memory.mutations, j, r) ==> HeldFor(w.shared, id, r)
  }

  /** DeleteRoutes outside the engine has not been called for `r`. */
  predicate Undisturbed(steps: seq<Step>, r: string) {
    forall k :: 0 <= k < |steps| ==> !(steps[k].RoutesWithdrawn? && r in steps[k].resources)
  }

  lemma {:induction false} OwnEvent(id: string, c: Config, e: Event, r: string, j: nat)
    requires Fire(id, c, e).Some? && Straight(Fire(id, c, e).value.thread.pc)
    requires AppliedAt(c.shared.tracked, Fire(id, c, e).value.thread.memory.mutations, j, r)
    requires Straight(c.thread.pc) && AppliedAt(c.shared.tracked, c.thread.memory.mutations, j, r) ==> HeldFor(c.shared, id, r)
    ensures Straight(c.thread.pc) && HeldFor(Fire(id, c, e).value.shared, id, r)
  {
    var ms, ns := c.thread.memory.mutations, Fire(id, c, e).value.thread.memory.mutations;
    if c.thread.pc == ApplyPending && j < |ms| - 1 {
      assert ns[j] == ms[j];
    }
  }

  /** A call moves only what its transaction has a live mutation for. */
  lemma {:induction false} UnclaimedUntouched(id: string, s: Shared, t: Thread, e: Event, r: string)
    requires ThreadInv(s, id, t) && !Claims(s.tracked, t.memory, r) && Fire(id, Config(s, t), e).Some?
    ensures var held := Fire(id, Config(s, t), e).value.shared.held;
            (r in held <==> r in s.held) && (r in held ==> held[r] == s.held[r])
  {
    var ms := t.memory.mutations;
    if t.pc == ApplyPending {
      assert !ClaimsAt(s.tracked, t.memory, |ms| - 1, r);
    } else if t.pc.CallUndo? {
      assert !ClaimsAt(s.tracked, t.memory, t.pc.todo - 1, r);
    }
  }

  lemma {:induction false} ActKeepsPlace(w: World, actor: string, e: Event, id: string, r: string)
    requires WorldInv(w) && KeepsPlace(w, id, r) && Uncontested(w, id, r) && Advance(w, Act(actor, e)).Some?
    ensures KeepsPlace(Advance(w, Act(actor, e)).value, id, r)
  {
    var w' := Advance(w, Act(actor, e)).value;
    var c := Config(w.shared, w.threads[actor]);
    FireMoves(actor, c, e);
    hide Fire;
    if id in w'.threads && Straight(w'.threads[id].pc) {
      forall j: nat | AppliedAt(w'.shared.tracked, w'.threads[id].memory.mutations, j, r)
        ensures HeldFor(w'.shared, id, r)
      {
        if actor == id {
          OwnEvent(id, c, e, r, j);
        } else {
          assert ClaimsAt(w.shared.tracked, w.threads[id].memory, j, r);
          UnclaimedUntouched(actor, w.shared, w.threads[actor], e, r);
        }
      }
    }
  }

  lemma {:induction false} StepKeepsPlace(w: World, step: Step, id: string, r: string)
    requires WorldInv(w) && KeepsPlace(w, id, r) && Uncontested(w, id, r)
    requires Advance(w, step).Some? && !(step.RoutesWithdrawn? && r in step.resources)
    ensures KeepsPlace(Advance(w, step).value, id, r)
  {
    hide Fire;
    match step
    case Begin(_, _, _, _) =>
    case Act(actor, e) => ActKeepsPlace(w, actor, e, id, r);
    case RoutesWithdrawn(resources) =>
    case Crash =>
    case StartRecovery(listed) =>
    case FinishRecovery =>
  }

  lemma {:induction false} RunKeepsPlace(w: World, steps: seq<Step>, id: string, r: string)
    requires WorldInv(w) && KeepsPlace(w, id, r) && Run(w, steps).Some?
    requires NeverContested(w, steps, id, r) && Undisturbed(steps, r)
    ensures KeepsPlace(Run(w, steps).value, id, r)
    decreases |steps|
  {
    hide Advance, WorldInv, KeepsPlace, Uncontested;
    if steps != [] {
      var n := |steps| - 1;
      assert forall k :: 0 <= k < n ==> steps[..n][k] == steps[k] && steps[..n][..k] == steps[..k];
      RunKeepsPlace(w, steps[..n], id, r);
      RunKeepsInv(w, steps[..n]);
      StepKeepsPlace(Run(w, steps[..n]).value, steps[n], id, r);
    }
  }

  /** In every run, whatever else is activated and deactivated in between: an
      established transaction has all the tracked resources of its plan in place
      on its behalf, except those for which another transaction had a live
      mutation at the same time or that were withdrawn outside the engine since
      it began. */
  lemma {:induction false} EstablishedInPlace(w: World, before: seq<Step>, u: World, later: seq<Step>, v: World,
                                              id: string, r: string)
    requires Initial(w) && Run(w, before) == Some(u) && id !in u.threads
    requires Run(u, later) == Some(v) && Undisturbed(later, r) && NeverContested(u, later, id, r)
    requires id in v.threads && v.threads[id].pc == Established
    requires r in Footprint(v.shared.tracked, v.threads[id].plan)
    ensures HeldFor(v.shared, id, r)
  {
    RunKeepsInv(w, before);
    RunKeepsInv(u, later);
    RunKeepsPlace(u, later, id, r);
    var j := PlanApplied(v, id, r);
  }

  lemma {:induction false} PlanApplied(v: World, id: string, r: string) returns (j: nat)
    requires WorldInv(v) && id in v.threads && v.threads[id].pc == Established
    requires r in Footprint(v.shared.tracked, v.threads[id].plan)
    ensures AppliedAt(v.shared.tracked, v.threads[id].memory.mutations, j, r)
  {
    var t := v.threads[id];
    assert ThreadInv(v.shared, id, t);
    j :| 0 <= j < |t.plan| && t.plan[j].kind in v.shared.tracked && t.plan[j].resource == r;
    assert SameTarget(t.memory.mutations[j], t.plan[j]);
  }

  // ---- One after another ----

  /** The transaction is being, or has been, rolled back and has nothing live
      for `r` any more. */
  ghost predicate Relinquished(tracked: set<MutationKind>, t: Thread, r: string) {
    Backward(t.pc) && !Claims(tracked, t.memory, r)
  }

  lemma {:induction false} FireRelinquished(id: string, c: Config, e: Event, r: string)
    requires Relinquished(c.shared.tracked, c.thread, r) && Fire(id, c, e).Some?
    ensures var d := Fire(id, c, e).value; d.shared.tracked == c.shared.tracked && Relinquished(d.shared.tracked, d.thread, r)
  {
    forall j: nat
      ensures !ClaimsAt(c.shared.tracked, Fire(id, c, e).value.thread.memory, j, r)
    {
      assert !ClaimsAt(c.shared.tracked, c.thread.memory, j, r);
    }
  }

  /** Within one life of the helper transactions only come, and what they name
      only grows. */
  ghost predicate Grows(u: World, v: World) {
    && v.mode == u.mode && v.shared.tracked == u.shared.tracked && u.threads.Keys <= v.threads.Keys
    && forall id :: id in u.threads ==>
         Footprint(u.shared.tracked, u.threads[id].memory.mutations) <= Footprint(u.shared.tracked, v.threads[id].memory.mutations)
  }

  lemma {:induction false} StepGrows(w: World, step: Step)
    requires w.mode == Serving && step != Crash && Advance(w, step).Some?
    ensures Grows(w, Advance(w, step).value)
  {
    hide Fire;
    if step.Act? {
      var c := Config(w.shared, w.threads[step.id]);
      var d := Fire(step.id, c, step.event).value;
      FireMoves(step.id, c, step.event);
      FootprintGrows(w.shared.tracked, c.thread.memory.mutations, d.thread.memory.mutations);
    }
  }

  lemma {:induction false} RunGrows(w: World, steps: seq<Step>)
    requires w.mode == Serving && Crash !in steps && Run(w, steps).Some?
    ensures Grows(w, Run(w, steps).value)
    decreases |steps|
  {
    if steps != [] {
      var n := |steps| - 1;
      assert forall k :: 0 <= k < n ==> steps[..n][k] == steps[k];
      RunGrows(w, steps[..n]);
      hide Advance;
      StepGrows(Run(w, steps[..n]).value, steps[n]);
    }
  }

  lemma {:induction false} RunRelinquished(w: World, steps: seq<Step>, id: string, r: string)
    requires w.mode == Serving && Crash !in steps && Run(w, steps).Some?
    requires id in w.threads && Relinquished(w.shared.tracked, w.threads[id], r)
    ensures var v := Run(w, steps).value;
            v.mode == Serving && id in v.threads && Relinquished(v.shared.tracked, v.threads[id], r)
    decreases |steps|
  {
    hide Fire, Relinquished;
    if steps != [] {
      var n := |steps| - 1;
      assert forall k :: 0 <= k < n ==> steps[..n][k] == steps[k];
      RunRelinquished(w, steps[..n], id, r);
      var v := Run(w, steps[..n]).value;
      if steps[n].Act? && steps[n].id == id {
        FireRelinquished(id, Config(v.shared, v.threads[id]), steps[n].event, r);
      } else if steps[n].Act? {
        FireMoves(steps[n].id, Config(v.shared, v.threads[steps[n].id]), steps[n].event);
      }
    }
  }

  /** All transactions of `v` that name `r`, other than `id`, had relinquished
      it in `u`. */
  ghost predicate OnlySuccessor(u: World, v: World, id: string, r: string) {
    forall other :: other in v.threads && other != id && r in Footprint(v.shared.tracked, v.threads[other].memory.mutations) ==>
      other in u.threads && Relinquished(u.shared.tracked, u.threads[other], r)
  }

  /** A condition on the two ends alone: when all others that name the resource
      had relinquished it before, it was not contested anywhere in between. */
  lemma {:induction false} SuccessorUncontested(u: World, first: seq<Step>, x: World, rest: seq<Step>, v: World,
                                                id: string, r: string)
    requires u.mode == Serving && Run(u, first) == Some(x) && Run(x, rest) == Some(v)
    requires Crash !in first && Crash !in rest && OnlySuccessor(u, v, id, r)
    ensures Uncontested(x, id, r)
  {
    RunGrows(u, first);
    RunGrows(x, rest);
    forall other | other in x.threads && other != id
      ensures !Claims(x.shared.tracked, x.threads[other].memory, r)
    {
      if r in Footprint(v.shared.tracked, v.threads[other].memory.mutations) {
        RunRelinquished(u, first, other, r);
      } else {
        NotNamed(x.shared.tracked, x.threads[other].memory, r);
      }
    }
  }

  lemma {:induction false} NotNamed(tracked: set<MutationKind>, rec: Record, r: string)
    requires r !in Footprint(tracked, rec.mutations)
    ensures !Claims(tracked, rec, r)
  {
    forall j: nat
      ensures !ClaimsAt(tracked, rec, j, r)
    {
      assert j < |rec.mutations| ==> rec.mutations[j] in rec.mutations;
    }
  }

  // ---- A resource that is contested can be lost ----

  lemma {:induction false} ExecKeepsCount(id: string, c: Config, es: seq<Event>, d: Config)
    requires Exec(id, c, es) == Some(d)
    ensures |c.thread.memory.mutations| <= |d.thread.memory.mutations|
    decreases |es|
  {
    hide Fire;
    if es != [] {
      var u := Exec(id, c, es[..|es| - 1]).value;
      ExecKeepsCount(id, c, es[..|es| - 1], u);
      FireMoves(id, u, es[|es| - 1]);
    }
  }

  predicate NoWithdrawals(steps: seq<Step>) {
    forall k :: 0 <= k < |steps| ==> !steps[k].RoutesWithdrawn?
  }

  lemma {:induction false} RunSingle(w: World, step: Step)
    ensures Run(w, [step]) == Advance(w, step)
  {
    hide Advance;
    assert [step][..0] == [];
    assert Run(w, []) == Some(w);
  }

  lemma {:induction false} InvSafe(w: World)
    requires WorldInv(w)
    ensures Safe(w.shared) && FilesShaped(w.shared)
  {
  }

  lemma {:induction false} CanServe(w: World) returns (steps: seq<Step>, v: World)
    requires Initial(w)
    ensures Run(w, steps) == Some(v) && v == World(Serving, w.shared, map[]) && WorldInv(v)
  {
    var u := World(Recovering, w.shared, map[]);
    v := World(Serving, w.shared, map[]);
    RunSingle(w, StartRecovery(map[]));
    RunSingle(u, FinishRecovery);
    RunConcat(w, [StartRecovery(map[])], u, [FinishRecovery]);
    steps := [StartRecovery(map[])] + [FinishRecovery];
    RunKeepsInv(w, steps);
  }

  lemma {:induction false} CanBegin(w: World, id: string, plan: seq<Mutation>) returns (step: Step, record: Record, v: World)
    requires w.mode == Serving && FreshId(w, id)
    ensures Advance(w, step) == Some(v) && step.Begin? && Blank(record, id)
    ensures v == World(Serving, w.shared.(files := w.shared.files[id := record]),
                       w.threads[id := Thread(NextMutation, plan, record)])
  {
    record := Record(1, id, "", "", "", 0, Preparing, []);
    step := Begin(id, record, plan, Saved);
    v := Advance(w, step).value;
  }

  /** A transaction with this plan comes, and perhaps goes again. */
  lemma {:induction false} ComesAndGoes(w: World, id: string, plan: seq<Mutation>, stays: bool) returns (steps: seq<Step>, v: World)
    requires WorldInv(w) && Safe(w.shared) && FilesShaped(w.shared) && w.mode == Serving && FreshId(w, id)
    ensures Run(w, steps) == Some(v) && WorldInv(v) && Safe(v.shared) && FilesShaped(v.shared) && v.mode == Serving
    ensures v.shared.tracked == w.shared.tracked && v.threads.Keys == w.threads.Keys + {id} && forall other :: other in w.threads ==> v.threads[other] == w.threads[other]
    ensures v.shared.files.Keys <= w.shared.files.Keys + {id} && v.threads[id].plan == plan
    ensures stays ==> v.threads[id].pc == Established && v.shared.held.Keys == w.shared.held.Keys + Footprint(w.shared.tracked, plan)
    ensures !stays ==> v.threads[id].pc == Settled(false) && v.shared.held == w.shared.held - Footprint(w.shared.tracked, plan)
    ensures NoWithdrawals(steps)
  {
    hide Advance, Fire, Exec, WorldInv, ThreadInv, Safe, FilesShaped;
    var step, record, u := CanBegin(w, id, plan);
    var c := Config(u.shared, u.threads[id]);
    var es, d := CanEstablish(id, c);
    ActivateAllOrNothing(id, w.shared, record, plan, c, es, d);
    if !stays {
      var first, d0 := es, d;
      es, d := CanGo(id, c, first, d0);
      ActivateAllOrNothing(id, w.shared, record, plan, c, es, d);
      FootprintOfPlan(w.shared.tracked, d.thread.memory.mutations, plan);
    }
    SoloIsRun(u, id, es, d);
    v := u.(shared := d.shared, threads := u.threads[id := d.thread]);
    RunSingle(w, step);
    RunConcat(w, [step], u, Acts(id, es));
    steps := [step] + Acts(id, es);
    RunKeepsInv(w, steps);
    InvSafe(v);
    ExecPlan(id, c, es, d);
  }

  lemma {:induction false} CanGo(id: string, c: Config, es: seq<Event>, d: Config) returns (all: seq<Event>, e: Config)
    requires Exec(id, c, es) == Some(d) && d.thread.pc == Established
    ensures Exec(id, c, all) == Some(e) && e.thread.pc == Settled(false)
    ensures |d.thread.memory.mutations| <= |e.thread.memory.mutations|
  {
    var d1 := Fire(id, d, DeactivateCalled).value;
    ExecStep(id, c, es, d, DeactivateCalled);
    var rest;
    rest, e := CanRollBack(id, d1);
    ExecConcat(id, c, es + [DeactivateCalled], d1, rest);
    ExecKeepsCount(id, d1, rest, e);
    all := es + [DeactivateCalled] + rest;
  }

  lemma {:induction false} ExecPlan(id: string, c: Config, es: seq<Event>, d: Config)
    requires Exec(id, c, es) == Some(d)
    ensures d.thread.plan == c.thread.plan && d.shared.tracked == c.shared.tracked
    ensures d.shared.files.Keys <= c.shared.files.Keys + {id}
    decreases |es|
  {
    hide Fire;
    if es != [] {
      var u := Exec(id, c, es[..|es| - 1]).value;
      ExecPlan(id, c, es[..|es| - 1], u);
      FireMoves(id, u, es[|es| - 1]);
      FireFiles(id, u, es[|es| - 1]);
    }
  }

  /** For every plan: a second transaction that names the same resources takes
      them away from the first one, which stays established, when it is
      deactivated. */
  lemma {:induction false} ContestedLost(w: World, plan: seq<Mutation>, a: string, b: string)
    returns (before: seq<Step>, u: World, later: seq<Step>, v: World)
    requires Initial(w) && a != b
    ensures Run(w, before) == Some(u) && a in u.threads && u.threads[a].pc == Established && u.threads[a].plan == plan
    ensures u.shared.held.Keys == Footprint(w.shared.tracked, plan)
    ensures Run(u, later) == Some(v) && a in v.threads && v.threads[a] == u.threads[a] && v.shared.held == map[]
    ensures forall r :: Undisturbed(later, r)
  {
    hide Run, WorldInv, Undisturbed;
    var serve, w1 := CanServe(w);
    InvSafe(w1);
    var first;
    first, u := ComesAndGoes(w1, a, plan, true);
    RunConcat(w, serve, w1, first);
    before := serve + first;
    later, v := ComesAndGoes(u, b, plan, false);
    assert v.shared.held == map[];
    forall r
      ensures Undisturbed(later, r)
    {
      NeverWithdrawn(later, r);
    }
  }

  lemma {:induction false} ExecSettles(id: string, c: Config, es: seq<Event>, d: Config)
    requires AllSettle(id, c) && Exec(id, c, es) == Some(d)
    ensures AllSettle(id, d)
    decreases |es|
  {
    hide Fire, AllSettle;
    if es != [] {
      var u := Exec(id, c, es[..|es| - 1]).value;
      ExecSettles(id, c, es[..|es| - 1], u);
      FireSettles(id, u, es[|es| - 1]);
    }
  }

  /** What an established transaction names is not in place after its rollback,
      whoever else relies on it. */
  lemma {:induction false} RollbackRemoves(id: string, s: Shared, t: Thread, es: seq<Event>, d: Config, r: string)
    requires Safe(s) && FilesShaped(s) && ThreadInv(s, id, t) && t.pc == Established && r in Footprint(s.tracked, t.plan)
    requires Exec(id, Config(s, t.(pc := StartRollback)), es) == Some(d) && d.thread.pc == Settled(false)
    ensures r !in d.shared.held
  {
    var c := Config(s, t.(pc := StartRollback));
    ExecSafe(id, c, es);
    ExecSettles(id, c, es, d);
    ExecNames(id, c, es, d, r);
    var j :| 0 <= j < |d.thread.memory.mutations|
      && d.thread.memory.mutations[j].kind in s.tracked && d.thread.memory.mutations[j].resource == r;
    assert Settles(d.shared, id, d.thread.memory.mutations[j]);
  }

  lemma {:induction false} ExecNames(id: string, c: Config, es: seq<Event>, d: Config, r: string)
    requires Exec(id, c, es) == Some(d)
    requires |c.thread.memory.mutations| == |c.thread.plan| && Follows(c.thread.memory.mutations, c.thread.plan)
    requires r in Footprint(c.shared.tracked, c.thread.plan)
    ensures r in Footprint(c.shared.tracked, d.thread.memory.mutations) && d.shared.tracked == c.shared.tracked
    decreases |es|
  {
    hide Fire;
    if es == [] {
      FootprintOfPlan(c.shared.tracked, c.thread.memory.mutations, c.thread.plan);
    } else {
      var u := Exec(id, c, es[..|es| - 1]).value;
      ExecNames(id, c, es[..|es| - 1], u, r);
      FireMoves(id, u, es[|es| - 1]);
      FootprintGrows(c.shared.tracked, u.thread.memory.mutations, d.thread.memory.mutations);
    }
  }

  /** That nobody contests is needed: in every state of every run in which two
      established transactions name a resource, the one can go and take it away
      from the other, which stays established. */
  lemma {:induction false} ContestedCanBeLost(w: World, steps: seq<Step>, v: World, id: string, other: string, r: string)
    returns (more: seq<Step>, z: World)
    requires Initial(w) && Run(w, steps) == Some(v) && v.mode == Serving && id != other
    requires id in v.threads && v.threads[id].pc == Established
    requires other in v.threads && v.threads[other].pc == Established
    requires r in Footprint(v.shared.tracked, v.threads[other].plan)
    ensures Run(v, more) == Some(z) && id in z.threads && z.threads[id] == v.threads[id] && r !in z.shared.held
    ensures NoWithdrawals(more)
  {
    RunKeepsInv(w, steps);
    InvSafe(v);
    hide Run, Advance;
    var t := v.threads[other];
    assert ThreadInv(v.shared, other, t);
    var c := Config(v.shared, t);
    var c1 := Config(v.shared, t.(pc := StartRollback));
    OneStep(other, c, DeactivateCalled);
    var es, d := CanRollBack(other, c1);
    ExecConcat(other, c, [DeactivateCalled], c1, es);
    SoloIsRun(v, other, [DeactivateCalled] + es, d);
    RollbackRemoves(other, v.shared, t, es, d, r);
    more, z := Acts(other, [DeactivateCalled] + es), v.(shared := d.shared, threads := v.threads[other := d.thread]);
  }

  lemma {:induction false} NeverWithdrawn(steps: seq<Step>, r: string)
    requires NoWithdrawals(steps)
    ensures Undisturbed(steps, r)
  {
  }
}
