/** One transaction of the journaled network engine as a machine of atomic
    steps (vpntoris-tray/internal/nativeengine/manager.go), and the whole
    system as an interleaving of such machines with crashes and recoveries.

    Every call the engine makes to its journal or to its backend is one event,
    and the event carries the outcome of the call.  A process death can fall
    between any two events. */
module WalMachine {
  import opened Wrappers
  import opened EngineTypes

  /** `Saved`: the record was replaced.  `NotSaved`: an error before the rename.
      `SavedNotSynced`: the rename took effect, the directory sync then failed. */
  datatype SaveOutcome = Saved | NotSaved | SavedNotSynced

  datatype OwnedAnswer = Yes | No | Unknown

  datatype Event =
    | IdentifierFailed
    | Appended(identifier: string, saved: SaveOutcome)
    | ApplyReturned(ok: bool, placed: bool, message: string)
    | Resaved(saved: SaveOutcome)
    | Skipped(index: nat)
    | OwnedReturned(index: nat, answer: OwnedAnswer)
    | UndoReturned(index: nat, ok: bool, withdrawn: bool, message: string)
    | RemoveReturned(ok: bool, gone: bool)
    | DeactivateCalled

  /** The next action of the code that owns a transaction. */
  datatype Pc =
    | NextMutation               // head of the loop in Activate
    | ApplyPending               // the pending record is on disk
    | SaveApplied                // Apply returned nil
    | SaveFailed                 // Apply returned an error
    | StartRollback              // entry of rollback
    | Scan(todo: nat, failed: bool)        // mutations [todo..] are dealt with
    | CallUndo(todo: nat, failed: bool)    // Owned said yes for todo - 1
    | SaveUndone(todo: nat, failed: bool)  // todo - 1 was just marked undone
    | Established                // Activate returned nil
    | Settled(failed: bool)      // rollback returned; failed: with an error of its own

  datatype Thread = Thread(pc: Pc, plan: seq<Mutation>, memory: Record)

  /** What survives the process.  `held` maps each network resource that is in
      place to the transaction on whose behalf it was last put there; `tracked`
      are the kinds of mutation that put anything in place at all. */
  datatype Shared = Shared(tracked: set<MutationKind>, files: map<string, Record>, held: map<string, string>)

  datatype Config = Config(shared: Shared, thread: Thread)

  /** The failures that rollback cannot absorb. */
  predicate Blocking(e: Event) {
    match e
    case OwnedReturned(_, answer) => answer == Unknown
    case UndoReturned(_, ok, _, _) => !ok
    case RemoveReturned(ok, _) => !ok
    case _ => false
  }

  function WithSave(s: Shared, r: Record, id: string, o: SaveOutcome): Shared {
    if o == NotSaved then s else s.(files := s.files[id := r])
  }

  function SetLast(ms: seq<Mutation>, state: MutationState, message: string): seq<Mutation>
    requires |ms| > 0
  {
    ms[|ms| - 1 := ms[|ms| - 1].(state := state, error := message)]
  }

  function NewMutation(p: Mutation, identifier: string): Mutation {
    p.(state := Pending, id := if p.id == "" then identifier else p.id)
  }

  /** What Apply may do to the resources: success puts a tracked resource in
      place, failure may or may not have. */
  function AfterApply(s: Shared, m: Mutation, id: string, placed: bool): Shared {
    if placed && m.kind in s.tracked then s.(held := s.held[m.resource := id]) else s
  }

  function AfterUndo(s: Shared, m: Mutation, withdrawn: bool): Shared {
    if withdrawn && m.kind in s.tracked then s.(held := s.held - {m.resource}) else s
  }

  /** One event of the transaction `id`; None when the code cannot take it now. */
  function Fire(id: string, c: Config, e: Event): Option<Config> {
    var s, t := c.shared, c.thread;
    var ms := t.memory.mutations;
    match (t.pc, e)
    case (NextMutation, IdentifierFailed) =>
      if |ms| < |t.plan| && t.plan[|ms|].id == "" then Some(Config(s, t.(pc := StartRollback))) else None
    case (NextMutation, Appended(identifier, o)) =>
      if |ms| < |t.plan| then
        var memory := t.memory.(mutations := ms + [NewMutation(t.plan[|ms|], identifier)]);
        Some(Config(WithSave(s, memory, id, o),
                    Thread(if o == Saved then ApplyPending else StartRollback, t.plan, memory)))
      else None
    case (NextMutation, Resaved(o)) =>
      if |ms| >= |t.plan| then
        var memory := t.memory.(state := Active);
        Some(Config(WithSave(s, memory, id, o),
                    Thread(if o == Saved then Established else StartRollback, t.plan, memory)))
      else None
    case (ApplyPending, ApplyReturned(ok, placed, message)) =>
      if |ms| > 0 && (ok ==> placed) then
        var m := ms[|ms| - 1];
        var last := if ok then SetLast(ms, Applied, m.error) else SetLast(ms, Failed, message);
        Some(Config(AfterApply(s, m, id, placed),
                    Thread(if ok then SaveApplied else SaveFailed, t.plan, t.memory.(mutations := last))))
      else None
    case (SaveApplied, Resaved(o)) =>
      Some(Config(WithSave(s, t.memory, id, o), t.(pc := if o == Saved then NextMutation else StartRollback)))
    case (SaveFailed, Resaved(o)) =>
      Some(Config(WithSave(s, t.memory, id, o), t.(pc := StartRollback)))
    case (StartRollback, Resaved(o)) =>
      var memory := t.memory.(state := RollingBack);
      Some(Config(WithSave(s, memory, id, o), Thread(Scan(|ms|, false), t.plan, memory)))
    case (Scan(todo, failed), _) => FireScan(id, c, todo, failed, e)
    case (CallUndo(todo, failed), UndoReturned(index, ok, withdrawn, message)) =>
      if 0 < todo <= |ms| && index == todo - 1 && (ok ==> withdrawn) then
        var m := ms[index];
        if ok then
          Some(Config(AfterUndo(s, m, withdrawn),
                      Thread(SaveUndone(todo, failed), t.plan,
                             t.memory.(mutations := ms[index := m.(state := Undone, error := "")]))))
        else
          Some(Config(AfterUndo(s, m, withdrawn),
                      Thread(Scan(todo - 1, true), t.plan, t.memory.(mutations := ms[index := m.(error := message)]))))
      else None
    case (SaveUndone(todo, failed), Resaved(o)) =>
      if 0 < todo then Some(Config(WithSave(s, t.memory, id, o), t.(pc := Scan(todo - 1, failed)))) else None
    case (Established, DeactivateCalled) => Some(Config(s, t.(pc := StartRollback)))
    case (Settled(_), DeactivateCalled) => Some(Config(s, t.(pc := StartRollback)))
    case _ => None
  }

  /** The rollback loop and its exit. */
  function FireScan(id: string, c: Config, todo: nat, failed: bool, e: Event): Option<Config> {
    var s, t := c.shared, c.thread;
    var ms := t.memory.mutations;
    if todo == 0 then
      match e
      case RemoveReturned(ok, gone) =>
        if !failed && (ok ==> gone) then
          Some(Config(if gone then s.(files := s.files - {id}) else s, t.(pc := Settled(!ok))))
        else None
      case Resaved(o) =>
        if failed then
          var memory := t.memory.(state := Broken);
          Some(Config(WithSave(s, memory, id, o), Thread(Settled(true), t.plan, memory)))
        else None
      case _ => None
    else if todo > |ms| then None
    else
      var m := ms[todo - 1];
      match e
      case Skipped(index) =>
        if index == todo - 1 && !Live(m) then Some(Config(s, t.(pc := Scan(todo - 1, failed)))) else None
      case OwnedReturned(index, answer) =>
        if index != todo - 1 || !Live(m) then None
        else if answer == Unknown then Some(Config(s, t.(pc := Scan(todo - 1, true))))
        else if answer == Yes then Some(Config(s, t.(pc := CallUndo(todo, failed))))
        else if m.kind in s.tracked && m.resource in s.held then None  // Owned never denies a resource in place
        else Some(Config(s, Thread(SaveUndone(todo, failed), t.plan,
                                   t.memory.(mutations := ms[index := m.(state := Undone, error := "")]))))
      case _ => None
  }

  /** A run of one transaction by itself. */
  function Exec(id: string, c: Config, es: seq<Event>): Option<Config>
    decreases |es|
  {
    if es == [] then Some(c) else
    match Exec(id, c, es[..|es| - 1])
    case None => None
    case Some(d) => Fire(id, d, es[|es| - 1])
  }

  // ---- The whole system ----------------------------------------------------

  /** `Down`: no helper process.  `Recovering`: Recover runs, before anything is
      served.  `Serving`: activations and deactivations interleave. */
  datatype Mode = Down | Recovering | Serving

  datatype World = World(mode: Mode, shared: Shared, threads: map<string, Thread>)

  datatype Step =
    | Begin(id: string, record: Record, plan: seq<Mutation>, saved: SaveOutcome)
    | Act(id: string, event: Event)
    | RoutesWithdrawn(resources: set<string>)  // DeleteRoutes called outside any transaction
    | Crash
    | StartRecovery(listed: map<string, Thread>)
    | FinishRecovery

  predicate FreshId(w: World, id: string) {
    id !in w.shared.files && id !in w.threads
  }

  /** The record Begin writes. */
  predicate Blank(r: Record, id: string) {
    r.id == id && r.state == Preparing && r.mutations == []
  }

  /** The transactions that Recover takes from the journal, each to be rolled back. */
  predicate Listed(files: map<string, Record>, listed: map<string, Thread>) {
    listed.Keys == files.Keys && forall id :: id in files ==> listed[id] == Thread(StartRollback, [], files[id])
  }

  function Advance(w: World, step: Step): Option<World> {
    match step
    case Begin(id, record, plan, saved) =>
      if w.mode == Serving && FreshId(w, id) && Blank(record, id) then
        Some(w.(shared := WithSave(w.shared, record, id, saved),
                threads := if saved == Saved then w.threads[id := Thread(NextMutation, plan, record)] else w.threads))
      else None
    case Act(id, e) =>
      if w.mode != Down && id in w.threads && (e == DeactivateCalled ==> w.mode == Serving) then
        match Fire(id, Config(w.shared, w.threads[id]), e)
        case None => None
        case Some(d) => Some(w.(shared := d.shared, threads := w.threads[id := d.thread]))
      else None
    case RoutesWithdrawn(resources) =>
      if w.mode == Serving then Some(w.(shared := w.shared.(held := w.shared.held - resources))) else None
    case Crash => Some(World(Down, w.shared, map[]))
    case StartRecovery(listed) =>
      if w.mode == Down && Listed(w.shared.files, listed) then Some(World(Recovering, w.shared, listed)) else None
    case FinishRecovery =>
      if w.mode == Recovering && forall id :: id in w.threads ==> w.threads[id].pc == Settled(false)
      then Some(World(Serving, w.shared, map[])) else None
  }

  /** Before the helper was ever started. */
  predicate Initial(w: World) {
    w.mode == Down && w.shared.files == map[] && w.shared.held == map[] && w.threads == map[]
  }

  function Run(w: World, steps: seq<Step>): Option<World>
    decreases |steps|
  {
    if steps == [] then Some(w) else
    match Run(w, steps[..|steps| - 1])
    case None => None
    case Some(v) => Advance(v, steps[|steps| - 1])
  }
}
