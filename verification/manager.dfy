/** The journal and the transaction manager as the program has them: objects
    whose methods update their fields (vpntoris-tray/internal/nativeengine/
    journal.go and manager.go).  Every call to the journal or the backend records
    itself, with its outcome, in a trace; the contracts say that what was
    recorded is a run of the machine in WalMachine, so everything proved about
    such runs holds of the methods. */
module Engine {
  import opened Wrappers
  import opened EngineTypes
  import opened WalMachine
  import opened WalSafety
  import opened WalRuns
  import opened WalRecovery
  import Text

  predicate SafeIdentifier(s: string) {
    1 <= |s| <= 96 && forall i :: 0 <= i < |s| ==>
      'a' <= s[i] <= 'z' || 'A' <= s[i] <= 'Z' || '0' <= s[i] <= '9' || s[i] == '_' || s[i] == '.' || s[i] == '-'
  }

  /** The in-memory transaction that the engine and the helper share. */
  class Transaction {
    const version: int
    const id: string
    const owner: string
    const profile: string
    const platform: string
    const createdAt: nat
    var state: TransactionState
    var mutations: seq<Mutation>

    function Snapshot(): Record
      reads this
    {
      Record(version, id, owner, profile, platform, createdAt, state, mutations)
    }

    constructor (r: Record)
      ensures Snapshot() == r
    {
      version, id, owner, profile, platform, createdAt := r.version, r.id, r.owner, r.profile, r.platform, r.createdAt;
      state, mutations := r.state, r.mutations;
    }
  }

  /** DeleteRoutes of the router, and what it withdrew. */
  datatype Deletion = Deletion(iface: string, routes: seq<string>, gone: set<string>)

  /** The calls to the journal and the backend with their outcomes, in order.
      The calls themselves write it; only what involves no call is noted. */
  class Trace {
    ghost var events: seq<Event>
    ghost var deletions: seq<Deletion>

    constructor ()
      ensures events == [] && deletions == []
    {
      events, deletions := [], [];
    }

    ghost method Note(e: Event)
      requires e.Skipped? || e.IdentifierFailed?
      modifies this`events
      ensures events == old(events) + [e]
    {
      events := events + [e];
    }
  }

  /** What a crash would leave behind, and the calls so far. */
  datatype Moment = Moment(shared: Shared, calls: seq<Event>, deletions: seq<Deletion>)

  class Journal {
    const owner: string
    const platform: string
    var files: map<string, Record>

    constructor (owner: string, platform: string, files: map<string, Record>)
      ensures this.owner == owner && this.platform == platform && this.files == files
    {
      this.owner, this.platform, this.files := owner, platform, files;
    }

    predicate Accepts(r: Record) {
      r.version == 1 && SafeIdentifier(r.id) && r.owner == owner && r.profile != "" && r.platform != ""
    }

    /** What the journal takes, by its character codes: version 1, an identifier
        of 1 to 96 letters, digits, underscores, dots and dashes, the owner of
        the journal, a profile and a platform. */
    lemma {:induction false} AcceptsWritten(r: Record)
      ensures Accepts(r) <==>
                && r.version == 1 && r.owner == owner && |r.profile| > 0 && |r.platform| > 0 && 0 < |r.id| < 97
                && forall i :: 0 <= i < |r.id| ==>
                     var c := r.id[i] as int;
                     97 <= c <= 122 || 65 <= c <= 90 || 48 <= c <= 57 || c == 95 || c == 46 || c == 45
    {
    }

    /** Begin can write its record just when the profile has 1 to 160 bytes, an
        identifier was drawn that is safe, and the journal has a platform. */
    lemma {:induction false} SavableWritten(profile: string, draw: Option<string>, now: nat)
      ensures Savable(profile, draw, now) <==>
                && |profile| > 0 && Text.Bytes(profile) < 161 && |platform| > 0 && draw.Some?
                && Accepts(Record(1, draw.value, owner, "p", "p", 0, Active, []))
    {
      if draw.Some? {
        AcceptsWritten(Record(1, draw.value, owner, "p", "p", 0, Active, []));
        AcceptsWritten(BlankRecord(draw.value, profile, now));
      }
    }

    ghost predicate Rejects(files: map<string, Record>) {
      exists id :: id in files && !Accepts(files[id])
    }

    /** `disk` is how writing the file goes: any step before the rename can fail,
        and so can the sync after it.  `identifier` is that of a mutation which
        was just appended. */
    method Save(t: Transaction, disk: SaveOutcome, ghost trace: Trace, ghost identifier: Option<string>)
      returns (failed: bool, ghost outcome: SaveOutcome)
      modifies this`files, trace`events
      ensures outcome == if Accepts(t.Snapshot()) then disk else NotSaved
      ensures failed <==> outcome != Saved
      ensures files == if outcome == NotSaved then old(files) else old(files)[t.id := t.Snapshot()]
      ensures trace.events == old(trace.events) + [if identifier.Some? then Appended(identifier.value, outcome) else Resaved(outcome)]
    {
      failed, outcome := Write(t, disk);
      trace.events := trace.events + [if identifier.Some? then Appended(identifier.value, outcome) else Resaved(outcome)];
    }

    method Write(t: Transaction, disk: SaveOutcome) returns (failed: bool, ghost outcome: SaveOutcome)
      modifies this`files
      ensures outcome == if Accepts(t.Snapshot()) then disk else NotSaved
      ensures failed <==> outcome != Saved
      ensures files == if outcome == NotSaved then old(files) else old(files)[t.id := t.Snapshot()]
    {
      if !Accepts(t.Snapshot()) {
        return true, NotSaved;
      }
      if disk == NotSaved {
        return true, NotSaved;
      }
      files := files[t.id := t.Snapshot()];
      return disk == SavedNotSynced, disk;
    }

    /** What Begin writes: the machine calls it a blank record. */
    function BlankRecord(id: string, profile: string, now: nat): (r: Record)
      ensures Blank(r, id) && r.version == 1 && r.owner == owner && r.profile == profile && r.platform == platform && r.createdAt == now
    {
      Record(1, id, owner, profile, platform, now, Preparing, [])
    }

    /** Whether Begin gets to writing a file that Save accepts. */
    predicate Savable(profile: string, draw: Option<string>, now: nat) {
      1 <= Text.Bytes(profile) <= 160 && draw.Some? && Accepts(BlankRecord(draw.value, profile, now))
    }

    /** `draw` is the random identifier, None when the entropy source fails;
        `now` is the clock. */
    method Begin(profile: string, draw: Option<string>, now: nat, disk: SaveOutcome, ghost trace: Trace) returns (t: Transaction?)
      requires draw.Some? ==> draw.value !in files
      modifies this`files, trace`events
      ensures t != null <==> Savable(profile, draw, now) && disk == Saved
      ensures t != null ==>
                && fresh(t) && t.Snapshot() == Record(1, draw.value, owner, profile, platform, now, Preparing, [])
                && t.Snapshot() == BlankRecord(draw.value, profile, now)
      ensures files == if Savable(profile, draw, now) && disk != NotSaved
                       then old(files)[draw.value := BlankRecord(draw.value, profile, now)] else old(files)
      ensures t != null ==> trace.events == old(trace.events) + [Resaved(Saved)]
    {
      if profile == "" || Text.Bytes(profile) > 160 {
        return null;
      }
      if draw.None? {
        return null;
      }
      var begun := new Transaction(Record(1, draw.value, owner, profile, platform, now, Preparing, []));
      var failed, outcome := Save(begun, disk, trace, None);
      if failed {
        return null;
      }
      return begun;
    }

    /** Every file, oldest first; an invalid one fails the call, and so does a
        directory or a file that cannot be read. */
    method List(readable: bool) returns (failed: bool, records: seq<Record>)
      requires forall id :: id in files ==> files[id].id == id
      ensures failed <==> !readable || Rejects(files)
      ensures !failed ==> SortedByAge(records) && Lists(files, files.Keys, records)
    {
      if !readable {
        return true, [];
      }
      records := [];
      var entries := files.Keys;
      while entries != {}
        invariant entries <= files.Keys && SortedByAge(records)
        invariant Lists(files, files.Keys - entries, records)
        invariant forall id :: id in files.Keys - entries ==> Accepts(files[id])
        decreases |entries|
      {
        var entry :| entry in entries;
        var record := files[entry];
        if !Accepts(record) {
          return true, [];
        }
        ghost var listed := files.Keys - entries;
        var at := AgeSlot(records, record.createdAt);
        InsertSorted(records, record);
        InsertKeepsListing(files, files.Keys - entries, records, record, at);
        records, entries := Insert(records, record, at), entries - {entry};
        assert files.Keys - entries == listed + {entry};
      }
      assert files.Keys - entries == files.Keys;
      return false, records;
    }

    /** `unlinked`: the system removes the file, or there was none. */
    method Remove(id: string, unlinked: bool, ghost trace: Trace) returns (ok: bool)
      modifies this`files, trace`events
      ensures ok <==> SafeIdentifier(id) && unlinked
      ensures files == if ok then old(files) - {id} else old(files)
      ensures trace.events == old(trace.events) + [RemoveReturned(ok, ok)]
    {
      if !SafeIdentifier(id) {
        trace.events := trace.events + [RemoveReturned(false, false)];
        return false;
      }
      if unlinked {
        files := files - {id};
      }
      trace.events := trace.events + [RemoveReturned(unlinked, unlinked)];
      return unlinked;
    }
  }

  /** Where a save that does not change the memory leads. */
  ghost function AfterSave(pc: Pc, failed: bool): Pc
    requires pc.SaveApplied? || pc.SaveFailed? || (pc.SaveUndone? && pc.todo > 0)
  {
    match pc
    case SaveApplied => if failed then StartRollback else NextMutation
    case SaveFailed => StartRollback
    case SaveUndone(todo, anyFailed) => Scan(todo - 1, anyFailed)
  }

  predicate SortedByAge(records: seq<Record>) {
    forall j, k :: 0 <= j < k < |records| ==> records[j].createdAt <= records[k].createdAt
  }

  /** `records` are the files named by `ids`, each once. */
  predicate Lists(files: map<string, Record>, ids: set<string>, records: seq<Record>) {
    && (forall k :: 0 <= k < |records| ==> records[k].id in ids && records[k].id in files && files[records[k].id] == records[k])
    && DistinctIds(records)
    && (forall id :: id in ids ==> Present(records, id))
  }

  predicate Present(records: seq<Record>, id: string) {
    exists k :: 0 <= k < |records| && records[k].id == id
  }

  predicate DistinctIds(records: seq<Record>) {
    forall j, k :: 0 <= j < k < |records| ==> records[j].id != records[k].id
  }

  function Insert(records: seq<Record>, r: Record, at: nat): (longer: seq<Record>)
    requires at <= |records|
    ensures |longer| == |records| + 1 && longer[at] == r
    ensures forall k :: 0 <= k < at ==> longer[k] == records[k]
    ensures forall k :: at < k < |longer| ==> longer[k] == records[k - 1]
  {
    records[..at] + [r] + records[at..]
  }

  lemma {:induction false} InsertPresent(records: seq<Record>, r: Record, at: nat, id: string)
    requires at <= |records| && (id == r.id || Present(records, id))
    ensures Present(Insert(records, r, at), id)
  {
    var longer := Insert(records, r, at);
    if id == r.id {
      assert longer[at].id == id;
    } else {
      var k :| 0 <= k < |records| && records[k].id == id;
      assert longer[if k < at then k else k + 1] == records[k];
    }
  }

  lemma {:induction false} InsertKeepsListing(files: map<string, Record>, ids: set<string>, records: seq<Record>, r: Record, at: nat)
    requires Lists(files, ids, records) && r.id !in ids && r.id in files && files[r.id] == r && at <= |records|
    ensures Lists(files, ids + {r.id}, Insert(records, r, at))
  {
    var longer := Insert(records, r, at);
    forall id | id in ids + {r.id}
      ensures Present(longer, id)
    {
      InsertPresent(records, r, at, id);
    }
  }

  lemma {:induction false} InsertSorted(records: seq<Record>, r: Record)
    requires SortedByAge(records)
    ensures SortedByAge(Insert(records, r, AgeSlot(records, r.createdAt)))
  {
  }

  lemma {:induction false} ListsAll(s: Shared, records: seq<Record>)
    requires Lists(s.files, s.files.Keys, records)
    ensures Listing(s, records)
  {
    forall id | id in s.files
      ensures exists k :: 0 <= k < |records| && records[k].id == id
    {
      assert Present(records, id);
    }
  }

  /** Where a record of the given age belongs. */
  function AgeSlot(records: seq<Record>, createdAt: nat): (at: nat)
    requires SortedByAge(records)
    ensures at <= |records|
    ensures forall k :: 0 <= k < at ==> records[k].createdAt <= createdAt
    ensures forall k :: at <= k < |records| ==> createdAt < records[k].createdAt
  {
    if records == [] || records[|records| - 1].createdAt <= createdAt then |records|
    else AgeSlot(records[..|records| - 1], createdAt)
  }

  /** The operating system as the engine sees it: any outcome the contract of a
      backend allows.  `owner` is bookkeeping only. */
  class Backend {
    const tracked: set<MutationKind>
    var held: map<string, string>

    constructor (tracked: set<MutationKind>, held: map<string, string>)
      ensures this.tracked == tracked && this.held == held
    {
      this.tracked, this.held := tracked, held;
    }

    method Apply(m: Mutation, owner: string, ghost trace: Trace) returns (ok: bool, ghost placed: bool, message: string)
      modifies this`held, trace`events
      ensures ok ==> placed
      ensures held == if placed && m.kind in tracked then old(held)[m.resource := owner] else old(held)
      ensures trace.events == old(trace.events) + [ApplyReturned(ok, placed, message)]
    {
      message := *;
      ok := *;
      var took: bool := *;
      if (ok || took) && m.kind in tracked {
        held := held[m.resource := owner];
      }
      placed := ok || took;
      trace.events := trace.events + [ApplyReturned(ok, placed, message)];
    }

    method Owned(m: Mutation, ghost index: nat, ghost trace: Trace) returns (answer: OwnedAnswer)
      modifies trace`events
      ensures answer == No ==> m.kind !in tracked || m.resource !in held
      ensures trace.events == old(trace.events) + [OwnedReturned(index, answer)]
    {
      answer := *;
      if answer == No && m.kind in tracked && m.resource in held {
        answer := Yes;
      }
      trace.events := trace.events + [OwnedReturned(index, answer)];
    }

    /** DeleteRoutes of the router: every failure of a command is ignored. */
    method DeleteRoutes(iface: string, routes: seq<string>, ghost trace: Trace) returns (ghost gone: set<string>)
      modifies this`held, trace`deletions
      ensures held == old(held) - gone && gone <= set route | route in routes :: RouteResource(iface, route)
      ensures trace.deletions == old(trace.deletions) + [Deletion(iface, routes, gone)]
    {
      gone := {};
      var index := |routes|;
      while index > 0
        invariant 0 <= index <= |routes| && held == old(held) - gone && trace.deletions == old(trace.deletions)
        invariant forall r :: r in gone ==> exists route :: route in routes && r == RouteResource(iface, route)
      {
        index := index - 1;
        if * {
          held := held - {RouteResource(iface, routes[index])};
          gone := gone + {RouteResource(iface, routes[index])};
        }
      }
      trace.deletions := trace.deletions + [Deletion(iface, routes, gone)];
    }

    method Undo(m: Mutation, ghost index: nat, ghost trace: Trace) returns (ok: bool, ghost withdrawn: bool, message: string)
      modifies this`held, trace`events
      ensures ok ==> withdrawn
      ensures held == if withdrawn && m.kind in tracked then old(held) - {m.resource} else old(held)
      ensures trace.events == old(trace.events) + [UndoReturned(index, ok, withdrawn, message)]
    {
      message := *;
      ok := *;
      var took: bool := *;
      if (ok || took) && m.kind in tracked {
        held := held - {m.resource};
      }
      withdrawn := ok || took;
      trace.events := trace.events + [UndoReturned(index, ok, withdrawn, message)];
    }
  }

  /** One complete pass over `records`, oldest first, from `s` to `t`. */
  ghost predicate Passed(s: Shared, records: seq<Record>, logs: seq<seq<Event>>, t: Shared, failed: bool) {
    Listing(s, records) && SortedByAge(records) && PartlyPassed(s, records, logs, t, failed)
  }

  /** A pass that has rolled back the `done` transactions. */
  ghost predicate PartlyPassed(s: Shared, done: seq<Record>, logs: seq<seq<Event>>, t: Shared, failed: bool) {
    && |done| == |logs| && Orderly(logs)
    && RecoverAll(s, done, logs) == Some(t)
    && (failed <==> PassFailures(logs) > 0)
  }

  lemma {:induction false} NothingPassed(s: Shared)
    ensures PartlyPassed(s, [], [], s, false) && Flat([]) == []
  {
  }

  /** The calls of all rollbacks of a pass, in order. */
  ghost function Flat(logs: seq<seq<Event>>): seq<Event> {
    if logs == [] then [] else Flat(logs[..|logs| - 1]) + logs[|logs| - 1]
  }

  lemma {:induction false} FlatMore(logs: seq<seq<Event>>, log: seq<Event>)
    ensures forall base: seq<Event> :: base + Flat(logs + [log]) == base + Flat(logs) + log
  {
    assert (logs + [log])[..|logs|] == logs;
  }

  /** A pass goes on with the rollback of one more transaction. */
  lemma {:induction false} PassedOne(before: Shared, done: seq<Record>, logs: seq<seq<Event>>, s: Shared, failed: bool,
                                     r: Record, log: seq<Event>, d: Config)
    requires PartlyPassed(before, done, logs, s, failed)
    requires Exec(r.id, Config(s, Thread(StartRollback, [], r)), log) == Some(d) && NoDeactivation(log) && d.thread.pc.Settled?
    ensures PartlyPassed(before, done + [r], logs + [log], d.shared, failed || d.thread.pc.failed)
  {
    hide Exec, Fire;
    RollbackErrs(r.id, Config(s, Thread(StartRollback, [], r)), log, d);
    assert (done + [r])[..|done|] == done && (logs + [log])[..|done|] == logs;
  }

  lemma {:induction false} RollbackErrs(id: string, c: Config, log: seq<Event>, d: Config)
    requires c.thread.pc == StartRollback && NoDeactivation(log) && Exec(id, c, log) == Some(d) && d.thread.pc.Settled?
    ensures d.thread.pc.failed <==> Blockings(log) > 0
  {
    hide Exec, Blockings;
    RollbackOrderAndCoverage(id, c, log, d);
    NoBlockings(log);
  }

  lemma {:induction false} PassConverges(s: Shared, records: seq<Record>, logs: seq<seq<Event>>, t: Shared, failed: bool)
    requires Sound(s) && Passed(s, records, logs, t, failed)
    ensures Sound(t) && (!failed ==> t.files == map[] && t.held == map[])
  {
    RecoverConverges(s, records, logs, t);
  }

  class Manager {
    const journal: Journal
    const backend: Backend
    const trace: Trace

    constructor (journal: Journal, backend: Backend, trace: Trace)
      ensures this.journal == journal && this.backend == backend && this.trace == trace
    {
      this.journal, this.backend, this.trace := journal, backend, trace;
    }

    /** What a crash would leave behind. */
    function World(): Shared
      reads journal, backend
    {
      Shared(backend.tracked, journal.files, backend.held)
    }

    ghost function Now(): Moment
      reads journal, backend, trace
    {
      Moment(World(), trace.events, trace.deletions)
    }

    ghost function At(pc: Pc, plan: seq<Mutation>, t: Transaction): Config
      reads journal, backend, t
    {
      Config(World(), Thread(pc, plan, t.Snapshot()))
    }

    /** The calls since `base` were a run from `start` to where the code of `t`
        stands now. */
    ghost predicate Stands(t: Transaction, start: Config, base: seq<Event>, pc: Pc, plan: seq<Mutation>)
      reads journal, backend, t, trace
    {
      Ran(t.id, start, base, trace.events, At(pc, plan, t))
    }

    /** A save that does not change the memory, in the course of a run. */
    method SaveStanding(t: Transaction, ghost pc: Pc, ghost plan: seq<Mutation>, ghost start: Config, ghost base: seq<Event>)
      returns (failed: bool)
      requires pc.SaveApplied? || pc.SaveFailed? || (pc.SaveUndone? && pc.todo > 0)
      requires Stands(t, start, base, pc, plan)
      modifies journal`files, trace`events
      ensures Stands(t, start, base, AfterSave(pc, failed), plan)
    {
      hide Ran;
      ghost var here, events := At(pc, plan, t), trace.events;
      var disk: SaveOutcome := *;
      var saveFailed, outcome := journal.Save(t, disk, trace, None);
      RanNext(t.id, start, base, events, here, Resaved(outcome), At(AfterSave(pc, saveFailed), plan, t));
      return saveFailed;
    }

    /** Undo for a mutation that Owned confirmed. */
    method UndoConfirmed(t: Transaction, index: nat, failed: bool, ghost plan: seq<Mutation>, ghost start: Config, ghost base: seq<Event>)
      returns (undone: bool)
      requires index < |t.mutations| && Stands(t, start, base, CallUndo(index + 1, failed), plan)
      modifies backend`held, t`mutations, trace`events
      ensures |t.mutations| == old(|t.mutations|)
      ensures Stands(t, start, base, if undone then SaveUndone(index + 1, failed) else Scan(index, true), plan)
    {
      hide Ran;
      ghost var here, events := At(CallUndo(index + 1, failed), plan, t), trace.events;
      var mutation := t.mutations[index];
      var ok, withdrawn, message := backend.Undo(mutation, index, trace);
      if ok {
        t.mutations := t.mutations[index := mutation.(state := Undone, error := "")];
      } else {
        t.mutations := t.mutations[index := mutation.(error := message)];
      }
      RanNext(t.id, start, base, events, here, UndoReturned(index, ok, withdrawn, message),
              At(if ok then SaveUndone(index + 1, failed) else Scan(index, true), plan, t));
      return ok;
    }

    /** Owned for a live mutation; a denial settles it. */
    method AskOwned(t: Transaction, index: nat, failed: bool, ghost plan: seq<Mutation>, ghost start: Config, ghost base: seq<Event>)
      returns (answer: OwnedAnswer)
      requires index < |t.mutations| && Live(t.mutations[index]) && Stands(t, start, base, Scan(index + 1, failed), plan)
      modifies t`mutations, trace`events
      ensures |t.mutations| == old(|t.mutations|)
      ensures Stands(t, start, base, AfterOwned(index, failed, answer), plan)
    {
      hide Ran;
      ghost var here, events := At(Scan(index + 1, failed), plan, t), trace.events;
      var mutation := t.mutations[index];
      answer := backend.Owned(mutation, index, trace);
      if answer == No {
        t.mutations := t.mutations[index := mutation.(state := Undone, error := "")];
      }
      RanNext(t.id, start, base, events, here, OwnedReturned(index, answer), At(AfterOwned(index, failed, answer), plan, t));
    }

    ghost function AfterOwned(index: nat, failed: bool, answer: OwnedAnswer): Pc {
      match answer
      case Unknown => Scan(index, true)
      case Yes => CallUndo(index + 1, failed)
      case No => SaveUndone(index + 1, failed)
    }

    /** Owned and Undo for a live mutation; `settled` when neither failed. */
    method Withdraw(t: Transaction, index: nat, failed: bool, ghost plan: seq<Mutation>, ghost start: Config, ghost base: seq<Event>)
      returns (settled: bool)
      requires index < |t.mutations| && Live(t.mutations[index]) && Stands(t, start, base, Scan(index + 1, failed), plan)
      modifies backend`held, t`mutations, trace`events
      ensures |t.mutations| == old(|t.mutations|)
      ensures Stands(t, start, base, if settled then SaveUndone(index + 1, failed) else Scan(index, true), plan)
    {
      hide Stands;
      var answer := AskOwned(t, index, failed, plan, start, base);
      if answer == Yes {
        settled := UndoConfirmed(t, index, failed, plan, start, base);
      } else {
        settled := answer == No;
      }
    }

    /** One turn of the rollback loop. */
    method UndoOne(t: Transaction, index: nat, failed: bool, ghost plan: seq<Mutation>, ghost start: Config, ghost base: seq<Event>)
      returns (nowFailed: bool)
      requires index < |t.mutations| && Stands(t, start, base, Scan(index + 1, failed), plan)
      modifies journal`files, backend`held, t`mutations, trace`events
      ensures |t.mutations| == old(|t.mutations|) && Stands(t, start, base, Scan(index, nowFailed), plan)
    {
      hide Ran, Fire;
      var state := t.mutations[index].state;
      if state != Pending && state != Applied && state != Failed {
        ghost var events := trace.events;
        SkipFires(t.id, At(Scan(index + 1, failed), plan, t));
        trace.Note(Skipped(index));
        RanNext(t.id, start, base, events, At(Scan(index + 1, failed), plan, t), Skipped(index), At(Scan(index, failed), plan, t));
        return failed;
      }
      nowFailed := UndoLive(t, index, failed, plan, start, base);
    }

    method UndoLive(t: Transaction, index: nat, failed: bool, ghost plan: seq<Mutation>, ghost start: Config, ghost base: seq<Event>)
      returns (nowFailed: bool)
      requires index < |t.mutations| && Live(t.mutations[index]) && Stands(t, start, base, Scan(index + 1, failed), plan)
      modifies journal`files, backend`held, t`mutations, trace`events
      ensures |t.mutations| == old(|t.mutations|) && Stands(t, start, base, Scan(index, nowFailed), plan)
    {
      hide Stands;
      var settled := Withdraw(t, index, failed, plan, start, base);
      if settled {
        var saveFailed := SaveStanding(t, SaveUndone(index + 1, failed), plan, start, base);
      }
      nowFailed := failed || !settled;
    }

    /** The end of rollback, once every mutation was dealt with. */
    method CloseRollback(t: Transaction, anyFailed: bool, ghost plan: seq<Mutation>, ghost start: Config, ghost base: seq<Event>)
      returns (failed: bool)
      requires Stands(t, start, base, Scan(0, anyFailed), plan)
      modifies journal`files, t`state, trace`events
      ensures Stands(t, start, base, Settled(failed), plan)
    {
      hide Ran;
      ghost var here, events := At(Scan(0, anyFailed), plan, t), trace.events;
      if !anyFailed {
        var unlinked: bool := *;
        var ok := journal.Remove(t.id, unlinked, trace);
        RanNext(t.id, start, base, events, here, RemoveReturned(ok, ok), At(Settled(!ok), plan, t));
        return !ok;
      } else {
        t.state := Broken;
        var disk: SaveOutcome := *;
        var saveFailed, outcome := journal.Save(t, disk, trace, None);
        RanNext(t.id, start, base, events, here, Resaved(outcome), At(Settled(true), plan, t));
        return true;
      }
    }

    /** Undo in reverse order; carry on after failures; remove the file only
        when there were none. */
    method Rollback(t: Transaction, ghost plan: seq<Mutation>) returns (failed: bool)
      modifies journal`files, backend`held, t`state, t`mutations, trace`events
      ensures Stands(t, old(At(StartRollback, plan, t)), old(trace.events), Settled(failed), plan)
    {
      hide Stands;
      ghost var start, base := At(StartRollback, plan, t), trace.events;
      BeginRollback(t, plan);
      failed := UndoAll(t, plan, start, base);
      failed := CloseRollback(t, failed, plan, start, base);
    }

    method BeginRollback(t: Transaction, ghost plan: seq<Mutation>)
      modifies journal`files, t`state, trace`events
      ensures Stands(t, old(At(StartRollback, plan, t)), old(trace.events), Scan(|t.mutations|, false), plan)
    {
      hide Ran, Fire;
      ghost var start, base := At(StartRollback, plan, t), trace.events;
      t.state := RollingBack;
      var disk: SaveOutcome := *;
      var saveFailed, outcome := journal.Save(t, disk, trace, None);
      RanNothing(t.id, start, base);
      RollbackFires(t.id, start, outcome);
      RanNext(t.id, start, base, base, start, Resaved(outcome), At(Scan(|t.mutations|, false), plan, t));
    }

    /** The loop of rollback. */
    method UndoAll(t: Transaction, ghost plan: seq<Mutation>, ghost start: Config, ghost base: seq<Event>) returns (failed: bool)
      requires Stands(t, start, base, Scan(|t.mutations|, false), plan)
      modifies journal`files, backend`held, t`mutations, trace`events
      ensures Stands(t, start, base, Scan(0, failed), plan)
    {
      hide Stands;
      failed := false;
      var index := |t.mutations|;
      while index > 0
        invariant 0 <= index <= |t.mutations| && Stands(t, start, base, Scan(index, failed), plan)
      {
        index := index - 1;
        failed := UndoOne(t, index, failed, plan, start, base);
      }
    }

    /** Rollback after a failed step of Activate, continuing its run. */
    method Abandon(t: Transaction, ghost plan: seq<Mutation>, ghost start: Config, ghost base: seq<Event>) returns (ghost unclean: bool)
      requires Stands(t, start, base, StartRollback, plan)
      modifies journal`files, backend`held, t`state, t`mutations, trace`events
      ensures Stands(t, start, base, Settled(unclean), plan)
    {
      hide Ran;
      ghost var middle, events := At(StartRollback, plan, t), trace.events;
      var failed := Rollback(t, plan);
      RanOn(t.id, start, base, events, middle, trace.events, At(Settled(failed), plan, t));
      unclean := failed;
    }

    /** One turn of the loop in Activate, for the mutation `p` of the plan. */
    method Advance(t: Transaction, p: Mutation, ghost plan: seq<Mutation>, ghost start: Config, ghost base: seq<Event>)
      returns (failed: bool)
      requires |t.mutations| < |plan| && p == plan[|t.mutations|] && Stands(t, start, base, NextMutation, plan)
      modifies journal`files, backend`held, t`mutations, trace`events
      ensures !failed ==> |t.mutations| == old(|t.mutations|) + 1
      ensures Stands(t, start, base, if failed then StartRollback else NextMutation, plan)
    {
      hide Ran, Fire;
      var draw: Option<string> := *;
      if p.id == "" && draw == None {
        ghost var here, events := At(NextMutation, plan, t), trace.events;
        NoIdentifierFires(t.id, here);
        trace.Note(IdentifierFailed);
        RanNext(t.id, start, base, events, here, IdentifierFailed, At(StartRollback, plan, t));
        return true;
      }
      failed := AppendPending(t, if p.id == "" then p.(id := draw.value) else p, p, plan, start, base);
      if failed {
        return true;
      }
      var ok := ApplyLast(t, plan, start, base);
      failed := SaveStanding(t, if ok then SaveApplied else SaveFailed, plan, start, base);
      return !ok || failed;
    }

    /** The mutation is appended as pending and saved. */
    method AppendPending(t: Transaction, m: Mutation, ghost p: Mutation, ghost plan: seq<Mutation>, ghost start: Config, ghost base: seq<Event>)
      returns (saveFailed: bool)
      requires |t.mutations| < |plan| && p == plan[|t.mutations|] && Stands(t, start, base, NextMutation, plan)
      requires m == p.(id := m.id) && (p.id != "" ==> m.id == p.id)
      modifies journal`files, t`mutations, trace`events
      ensures |t.mutations| == old(|t.mutations|) + 1
      ensures Stands(t, start, base, if saveFailed then StartRollback else ApplyPending, plan)
    {
      hide Ran, Fire;
      ghost var here, events := At(NextMutation, plan, t), trace.events;
      t.mutations := t.mutations + [m.(state := Pending)];
      var disk: SaveOutcome := *;
      var failed, outcome := journal.Save(t, disk, trace, Some(m.id));
      AppendFires(t.id, here, m.id, outcome);
      RanNext(t.id, start, base, events, here, Appended(m.id, outcome),
              At(if failed then StartRollback else ApplyPending, plan, t));
      return failed;
    }

    /** Apply for the mutation whose pending record is on disk. */
    method ApplyLast(t: Transaction, ghost plan: seq<Mutation>, ghost start: Config, ghost base: seq<Event>) returns (ok: bool)
      requires |t.mutations| > 0 && Stands(t, start, base, ApplyPending, plan)
      modifies backend`held, t`mutations, trace`events
      ensures |t.mutations| == old(|t.mutations|)
      ensures Stands(t, start, base, if ok then SaveApplied else SaveFailed, plan)
    {
      hide Ran, Fire;
      ghost var here, events := At(ApplyPending, plan, t), trace.events;
      var last := |t.mutations| - 1;
      var applied, placed, message := backend.Apply(t.mutations[last], t.id, trace);
      ApplyFires(t.id, here, applied, placed, message);
      MarkLast(t, applied, message);
      RanNext(t.id, start, base, events, here, ApplyReturned(applied, placed, message),
              At(if applied then SaveApplied else SaveFailed, plan, t));
      return applied;
    }

    method MarkLast(t: Transaction, ok: bool, message: string)
      requires |t.mutations| > 0
      modifies t`mutations
      ensures var ms := old(t.mutations);
              t.mutations == if ok then SetLast(ms, Applied, ms[|ms| - 1].error) else SetLast(ms, Failed, message)
    {
      var last := |t.mutations| - 1;
      if !ok {
        t.mutations := t.mutations[last := t.mutations[last].(state := Failed, error := message)];
      } else {
        t.mutations := t.mutations[last := t.mutations[last].(state := Applied)];
      }
    }

    /** Journal first, then apply, one mutation at a time.  `draw`, `now` and
        `disk` are the random identifier, the clock and the first save, those of
        Begin; `unclean` is an error of the rollback itself. */
    method Activate(plan: Plan, draw: Option<string>, now: nat, disk: SaveOutcome)
      returns (t: Transaction?, failed: bool, ghost unclean: bool)
      requires draw.Some? ==> draw.value !in journal.files
      modifies journal`files, backend`held, trace`events
      ensures t != null <==> journal.Savable(plan.profile, draw, now) && disk == Saved
      ensures t == null ==>
                && failed && backend.held == old(backend.held)
                && journal.files == if journal.Savable(plan.profile, draw, now) && disk != NotSaved
                                    then old(journal.files)[draw.value := journal.BlankRecord(draw.value, plan.profile, now)]
                                    else old(journal.files)
      ensures t != null ==>
                && fresh(t) && draw == Some(t.id)
                && var record := journal.BlankRecord(t.id, plan.profile, now);
                   Stands(t, Config(Shared(backend.tracked, old(journal.files)[t.id := record], old(backend.held)),
                                    Thread(NextMutation, plan.mutations, record)),
                          old(trace.events) + [Resaved(Saved)], if failed then Settled(unclean) else Established, plan.mutations)
    {
      hide Stands;
      unclean := false;
      t := journal.Begin(plan.profile, draw, now, disk, trace);
      if t == null {
        return null, true, false;
      }
      ghost var base := trace.events;
      ghost var start := At(NextMutation, plan.mutations, t);
      failed := ApplyAll(t, plan);
      if failed {
        unclean := Abandon(t, plan.mutations, start, base);
      }
    }

    /** The loop of Activate and the last save. */
    method ApplyAll(t: Transaction, plan: Plan) returns (failed: bool)
      requires t.mutations == []
      modifies journal`files, backend`held, t`mutations, t`state, trace`events
      ensures Stands(t, old(At(NextMutation, plan.mutations, t)), old(trace.events),
                     if failed then StartRollback else Established, plan.mutations)
    {
      hide Ran, Fire;
      ghost var start, base := At(NextMutation, plan.mutations, t), trace.events;
      RanNothing(t.id, start, base);
      failed := false;
      while !failed && |t.mutations| < |plan.mutations|
        invariant |t.mutations| <= |plan.mutations| || failed
        invariant Stands(t, start, base, if failed then StartRollback else NextMutation, plan.mutations)
        decreases if failed then 0 else 1 + |plan.mutations| - |t.mutations|
      {
        failed := Advance(t, plan.mutations[|t.mutations|], plan.mutations, start, base);
      }
      if !failed {
        failed := Complete(t, plan.mutations, start, base);
      }
    }

    method Complete(t: Transaction, ghost plan: seq<Mutation>, ghost start: Config, ghost base: seq<Event>) returns (failed: bool)
      requires |t.mutations| >= |plan| && Stands(t, start, base, NextMutation, plan)
      modifies journal`files, t`state, trace`events
      ensures Stands(t, start, base, if failed then StartRollback else Established, plan)
    {
      hide Ran, Fire;
      ghost var here, events := At(NextMutation, plan, t), trace.events;
      t.state := Active;
      var disk: SaveOutcome := *;
      var saveFailed, outcome := journal.Save(t, disk, trace, None);
      CompleteFires(t.id, here, outcome);
      RanNext(t.id, start, base, events, here, Resaved(outcome), At(if saveFailed then StartRollback else Established, plan, t));
      return saveFailed;
    }

    method Deactivate(t: Transaction?, ghost plan: seq<Mutation>) returns (failed: bool)
      modifies journal`files, backend`held, (if t == null then {} else {t}), trace`events
      ensures t == null ==> failed && World() == old(World()) && trace.events == old(trace.events)
      ensures t != null ==> Stands(t, old(At(StartRollback, plan, t)), old(trace.events), Settled(failed), plan)
    {
      hide Stands;
      if t == null {
        return true;
      }
      failed := Rollback(t, plan);
    }

    /** One recovery pass over the journal, going on after errors.  Without an
        error the journal is empty afterwards and nothing is in place. */
    method Recover(readable: bool) returns (failed: bool, ghost records: seq<Record>, ghost logs: seq<seq<Event>>)
      requires Sound(World())
      modifies journal`files, backend`held, trace`events
      ensures Sound(World())
      ensures !readable || journal.Rejects(old(World()).files) ==>
                failed && World() == old(World()) && trace.events == old(trace.events)
      ensures readable && !journal.Rejects(old(World()).files) ==>
                Passed(old(World()), records, logs, World(), failed) && trace.events == old(trace.events) + Flat(logs)
      ensures !failed ==> journal.files == map[] && backend.held == map[]
    {
      var listFailed, listed := journal.List(readable);
      if listFailed {
        return true, [], [];
      }
      ListsAll(World(), listed);
      records := listed;
      failed, logs := RecoverListed(listed);
      PassConverges(old(World()), records, logs, World(), failed);
    }

    /** The loop of Recover. */
    method RecoverListed(listed: seq<Record>) returns (failed: bool, ghost logs: seq<seq<Event>>)
      requires Listing(World(), listed) && SortedByAge(listed)
      modifies journal`files, backend`held, trace`events
      ensures Passed(old(World()), listed, logs, World(), failed) && trace.events == old(trace.events) + Flat(logs)
    {
      hide PartlyPassed, Flat;
      ghost var before := World();
      failed, logs := false, [];
      NothingPassed(before);
      var next := 0;
      while next < |listed|
        invariant 0 <= next <= |listed|
        invariant PartlyPassed(before, listed[..next], logs, World(), failed)
        invariant trace.events == old(trace.events) + Flat(logs)
      {
        ghost var log;
        failed, log := RecoverOne(listed[next], failed, before, listed[..next], logs);
        FlatMore(logs, log);
        logs := logs + [log];
        assert listed[..next] + [listed[next]] == listed[..next + 1];
        next := next + 1;
      }
      assert listed[..|listed|] == listed;
    }

    /** One turn of the loop in Recover. */
    method RecoverOne(r: Record, failedBefore: bool, ghost before: Shared, ghost done: seq<Record>, ghost logs: seq<seq<Event>>)
      returns (failed: bool, ghost log: seq<Event>)
      requires PartlyPassed(before, done, logs, World(), failedBefore)
      modifies journal`files, backend`held, trace`events
      ensures PartlyPassed(before, done + [r], logs + [log], World(), failed)
      ensures trace.events == old(trace.events) + log
    {
      hide Exec, Fire, PartlyPassed;
      var t := new Transaction(r);
      ghost var here := At(StartRollback, [], t);
      assert here == Config(old(World()), Thread(StartRollback, [], r));
      var rollbackFailed := Rollback(t, []);
      log := trace.events[|old(trace.events)|..];
      PassedOne(before, done, logs, here.shared, failedBefore, r, log, At(Settled(rollbackFailed), [], t));
      return failedBefore || rollbackFailed, log;
    }
  }
}
