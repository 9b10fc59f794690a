/** The backend behind the engine: MutationBackend meets the contract of
    Engine.Backend, on the names of resources, and so makes only moves that the
    machine of a transaction takes. */
module EngineBackends {
  import opened Wrappers
  import opened EngineTypes
  import opened WalMachine
  import opened MutationBackends

  /** A mutation as it was planned. */
  function Target(m: Mutation): Mutation {
    m.(id := "", state := Pending, error := "")
  }

  const TRACKED: set<MutationKind> := {Route, Dns}

  /** Whose resources the engine manages: mutations planned as `all`, in any
      state, and mutations that put nothing in place. */
  predicate Managed(all: set<Mutation>, m: Mutation) {
    m.kind in TRACKED ==> Target(m) in all
  }

  predicate AllWellNamed(all: set<Mutation>) {
    forall m :: m in all ==> WellNamed(m)
  }

  lemma {:induction false} TargetPlace(all: set<Mutation>, m: Mutation)
    requires AllWellNamed(all) && Managed(all, m) && m.kind in TRACKED
    ensures WellNamed(m) && PlaceOf(m).Some? && PlaceOf(m) == PlaceOf(Target(m)) && m.resource == Target(m).resource
  {
    NamesArePlaces(m, m);
  }

  lemma {:induction false} UntrackedNowhere(m: Mutation)
    requires m.kind !in TRACKED
    ensures PlaceOf(m) == None
  {
  }

  function PlannedPlaces(all: set<Mutation>): set<Place> {
    set m | m in all && PlaceOf(m).Some? :: PlaceOf(m).value
  }

  ghost function Taken(backend: MutationBackend, places: set<Place>): set<Place>
    reads backend.Objects()
  {
    set p | p in places && backend.InPlace(p)
  }

  /** The names of the resources in place. */
  ghost function HeldNames(backend: MutationBackend, all: set<Mutation>): set<string>
    reads backend.Objects()
  {
    NamesOf(all, PlaceOf, Taken(backend, PlannedPlaces(all)))
  }

  /** One place taken or given up, all others as before. */
  lemma {:induction false} OnePlace(all: set<Mutation>, before: set<Place>, after: set<Place>, m: Mutation, p: Place, taken: bool)
    requires AllWellNamed(all) && Managed(all, m) && m.kind in TRACKED && PlaceOf(m) == Some(p)
    requires after == if taken then before + {p} else before - {p}
    ensures NamesOf(all, PlaceOf, after)
              == if taken then NamesOf(all, PlaceOf, before) + {m.resource} else NamesOf(all, PlaceOf, before) - {m.resource}
    ensures m.resource in NamesOf(all, PlaceOf, before) <==> p in before
  {
    TargetPlace(all, m);
    ContractOnNames(all, before, Target(m));
  }

  lemma {:induction false} TargetPlanned(all: set<Mutation>, m: Mutation) returns (p: Place)
    requires AllWellNamed(all) && Managed(all, m) && m.kind in TRACKED
    ensures PlaceOf(m) == Some(p) && p in PlannedPlaces(all)
  {
    TargetPlace(all, m);
    p := PlaceOf(m).value;
    assert Target(m) in all;
  }

  /** `held` has the engine's view of what the backend has in place. */
  ghost predicate Mirrors(backend: MutationBackend, all: set<Mutation>, held: map<string, string>)
    reads backend.Objects()
  {
    OwnIndexes(backend.router) && AllWellNamed(all) && held.Keys == HeldNames(backend, all)
  }

  method ApplyAt(backend: MutationBackend, m: Mutation, ghost p: Place, ghost places: set<Place>) returns (failed: bool)
    requires OwnIndexes(backend.router) && PlaceOf(m) == Some(p) && p in places
    modifies backend.Objects()
    ensures Taken(backend, places)
              == if backend.InPlace(p) then old(Taken(backend, places)) + {p} else old(Taken(backend, places)) - {p}
    ensures old(backend.InPlace(p)) || !failed ==> backend.InPlace(p)
  {
    failed := backend.Apply(m);
  }

  method UndoAt(backend: MutationBackend, m: Mutation, ghost p: Place, ghost places: set<Place>) returns (failed: bool)
    requires OwnIndexes(backend.router) && PlaceOf(m) == Some(p) && p in places
    modifies backend.Objects()
    ensures Taken(backend, places)
              == if backend.InPlace(p) then old(Taken(backend, places)) + {p} else old(Taken(backend, places)) - {p}
    ensures backend.InPlace(p) ==> old(backend.InPlace(p))
    ensures !failed && backend.Reliable() ==> !backend.InPlace(p)
  {
    failed := backend.Undo(m);
  }

  method ApplyTracked(backend: MutationBackend, ghost all: set<Mutation>, ghost held: map<string, string>, m: Mutation, ghost owner: string)
    returns (ok: bool, ghost placed: bool, ghost now: map<string, string>)
    requires Mirrors(backend, all, held) && Managed(all, m) && m.kind in TRACKED
    modifies backend.Objects()
    ensures Mirrors(backend, all, now) && (ok ==> placed)
    ensures now == if placed then held[m.resource := owner] else held
  {
    ghost var p := TargetPlanned(all, m);
    ghost var before := Taken(backend, PlannedPlaces(all));
    var failed := ApplyAt(backend, m, p, PlannedPlaces(all));
    OnePlace(all, before, Taken(backend, PlannedPlaces(all)), m, p, backend.InPlace(p));
    ok := !failed;
    placed := ok || (backend.InPlace(p) && p !in before);
    now := if placed then held[m.resource := owner] else held;
  }

  method UndoTracked(backend: MutationBackend, ghost all: set<Mutation>, ghost held: map<string, string>, m: Mutation)
    returns (ok: bool, ghost withdrawn: bool, ghost now: map<string, string>)
    requires Mirrors(backend, all, held) && Managed(all, m) && m.kind in TRACKED
    modifies backend.Objects()
    ensures Mirrors(backend, all, now) && (ok && backend.Reliable() ==> withdrawn)
    ensures now == if withdrawn then held - {m.resource} else held
  {
    ghost var p := TargetPlanned(all, m);
    ghost var before := Taken(backend, PlannedPlaces(all));
    var failed := UndoAt(backend, m, p, PlannedPlaces(all));
    OnePlace(all, before, Taken(backend, PlannedPlaces(all)), m, p, backend.InPlace(p));
    ok, withdrawn := !failed, !backend.InPlace(p);
    now := if withdrawn then held - {m.resource} else held;
  }

  // ---- Tracked or not ----

  /** Success places the resource, failure may or may not, nothing else moves. */
  method ApplyAny(backend: MutationBackend, ghost all: set<Mutation>, ghost s: Shared, m: Mutation, ghost owner: string)
    returns (ok: bool, ghost placed: bool, ghost t: Shared)
    requires s.tracked == TRACKED && Mirrors(backend, all, s.held) && Managed(all, m)
    modifies backend.Objects()
    ensures (ok ==> placed) && t == AfterApply(s, m, owner, placed) && Mirrors(backend, all, t.held)
  {
    if m.kind in TRACKED {
      ghost var now;
      ok, placed, now := ApplyTracked(backend, all, s.held, m, owner);
      return ok, placed, s.(held := now);
    }
    ok := ApplyUntracked(backend, all, m);
    return ok, true, s;
  }

  method ApplyUntracked(backend: MutationBackend, ghost all: set<Mutation>, m: Mutation) returns (ok: bool)
    requires OwnIndexes(backend.router) && m.kind !in TRACKED
    modifies backend.Objects()
    ensures HeldNames(backend, all) == old(HeldNames(backend, all))
  {
    UntrackedNowhere(m);
    var failed := backend.Apply(m);
    assert Taken(backend, PlannedPlaces(all)) == old(Taken(backend, PlannedPlaces(all)));
    return !failed;
  }

  /** With reliable deletions success withdraws the resource, failure may or may
      not, nothing else moves. */
  method UndoAny(backend: MutationBackend, ghost all: set<Mutation>, ghost s: Shared, m: Mutation)
    returns (ok: bool, ghost withdrawn: bool, ghost t: Shared)
    requires s.tracked == TRACKED && Mirrors(backend, all, s.held) && Managed(all, m)
    modifies backend.Objects()
    ensures (ok && backend.Reliable() ==> withdrawn) && t == AfterUndo(s, m, withdrawn) && Mirrors(backend, all, t.held)
  {
    if m.kind in TRACKED {
      ghost var now;
      ok, withdrawn, now := UndoTracked(backend, all, s.held, m);
      return ok, withdrawn, s.(held := now);
    }
    ok := UndoUntracked(backend, all, m);
    return ok, true, s;
  }

  method UndoUntracked(backend: MutationBackend, ghost all: set<Mutation>, m: Mutation) returns (ok: bool)
    requires OwnIndexes(backend.router) && m.kind !in TRACKED
    modifies backend.Objects()
    ensures HeldNames(backend, all) == old(HeldNames(backend, all))
  {
    UntrackedNowhere(m);
    var failed := backend.Undo(m);
    assert Taken(backend, PlannedPlaces(all)) == old(Taken(backend, PlannedPlaces(all)));
    return !failed;
  }

  // ---- The three calls of the engine ----

  /** The engine calls Apply for the pending mutation, and what it gets is an
      event that the machine of the transaction takes, to a state that mirrors
      the backend again. */
  method Apply(backend: MutationBackend, ghost all: set<Mutation>, ghost s: Shared, ghost t: Thread, m: Mutation, ghost id: string)
    returns (ok: bool, message: string, ghost placed: bool, ghost d: Config)
    requires s.tracked == TRACKED && Mirrors(backend, all, s.held) && Managed(all, m)
    requires t.pc == ApplyPending && |t.memory.mutations| > 0 && t.memory.mutations[|t.memory.mutations| - 1] == m
    modifies backend.Objects()
    ensures Fire(id, Config(s, t), ApplyReturned(ok, placed, message)) == Some(d) && Mirrors(backend, all, d.shared.held)
    ensures d.shared == AfterApply(s, m, id, placed) && (ok ==> placed)
  {
    message := *;
    ghost var after;
    ok, placed, after := ApplyAny(backend, all, s, m, id);
    d := ApplyFires(id, s, t, ok, placed, message);
  }

  lemma {:induction false} ApplyFires(id: string, s: Shared, t: Thread, ok: bool, placed: bool, message: string) returns (d: Config)
    requires t.pc == ApplyPending && |t.memory.mutations| > 0 && (ok ==> placed)
    ensures Fire(id, Config(s, t), ApplyReturned(ok, placed, message)) == Some(d)
    ensures d.shared == AfterApply(s, t.memory.mutations[|t.memory.mutations| - 1], id, placed)
  {
    d := Fire(id, Config(s, t), ApplyReturned(ok, placed, message)).value;
  }

  /** The same for Undo of a mutation that Owned confirmed.  Deletions that are
      not reliable can leave the resource in place after a success; that is the
      only outcome the machine does not take. */
  method Undo(backend: MutationBackend, ghost all: set<Mutation>, ghost s: Shared, ghost t: Thread, m: Mutation, ghost id: string)
    returns (ok: bool, message: string, ghost withdrawn: bool, ghost d: Config)
    requires s.tracked == TRACKED && Mirrors(backend, all, s.held) && Managed(all, m)
    requires t.pc.CallUndo? && 0 < t.pc.todo <= |t.memory.mutations| && t.memory.mutations[t.pc.todo - 1] == m
    modifies backend.Objects()
    ensures d.shared == AfterUndo(s, m, withdrawn) && Mirrors(backend, all, d.shared.held)
    ensures Fire(id, Config(s, t), UndoReturned(t.pc.todo - 1, ok, withdrawn, message)) == (if ok ==> withdrawn then Some(d) else None)
    ensures backend.Reliable() && ok ==> withdrawn
  {
    message := *;
    ghost var after;
    ok, withdrawn, after := UndoAny(backend, all, s, m);
    d := UndoFires(id, s, t, ok, withdrawn, message);
  }

  lemma {:induction false} UndoFires(id: string, s: Shared, t: Thread, ok: bool, withdrawn: bool, message: string) returns (d: Config)
    requires t.pc.CallUndo? && 0 < t.pc.todo <= |t.memory.mutations|
    ensures Fire(id, Config(s, t), UndoReturned(t.pc.todo - 1, ok, withdrawn, message)) == if ok ==> withdrawn then Some(d) else None
    ensures d.shared == AfterUndo(s, t.memory.mutations[t.pc.todo - 1], withdrawn)
  {
    var fired := Fire(id, Config(s, t), UndoReturned(t.pc.todo - 1, ok, withdrawn, message));
    d := if fired.Some? then fired.value else Config(AfterUndo(s, t.memory.mutations[t.pc.todo - 1], withdrawn), t);
  }

  /** The same for Owned, which answers for the backend and changes nothing; so a
      denial means that the resource is not in place. */
  method Owned(backend: MutationBackend, ghost all: set<Mutation>, ghost s: Shared, ghost t: Thread, m: Mutation, ghost id: string)
    returns (answer: OwnedAnswer, ghost d: Config)
    requires s.tracked == TRACKED && Mirrors(backend, all, s.held) && Managed(all, m)
    requires t.pc.Scan? && 0 < t.pc.todo <= |t.memory.mutations| && t.memory.mutations[t.pc.todo - 1] == m && Live(m)
    ensures Fire(id, Config(s, t), OwnedReturned(t.pc.todo - 1, answer)) == Some(d) && d.shared == s
    ensures answer == No ==> m.kind !in s.tracked || m.resource !in s.held
    ensures answer != Unknown
  {
    var owned := backend.Owned(m);
    if m.kind in TRACKED {
      TargetPlace(all, m);
    }
    answer := if owned then Yes else No;
    d := OwnedFires(id, s, t, answer);
  }

  lemma {:induction false} OwnedFires(id: string, s: Shared, t: Thread, answer: OwnedAnswer) returns (d: Config)
    requires t.pc.Scan? && 0 < t.pc.todo <= |t.memory.mutations| && Live(t.memory.mutations[t.pc.todo - 1])
    requires var m := t.memory.mutations[t.pc.todo - 1]; answer == No ==> m.kind !in s.tracked || m.resource !in s.held
    ensures Fire(id, Config(s, t), OwnedReturned(t.pc.todo - 1, answer)) == Some(d) && d.shared == s
  {
    d := Fire(id, Config(s, t), OwnedReturned(t.pc.todo - 1, answer)).value;
  }
}
