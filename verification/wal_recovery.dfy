/** Recovery passes over whatever a crash left on disk
    (vpntoris-tray/internal/nativeengine/manager.go, Recover). */
module WalRecovery {
  import opened Wrappers
  import opened EngineTypes
  import opened WalMachine
  import opened WalSafety
  import opened WalRuns

  /** The whole journal, each file once. */
  ghost predicate Listing(s: Shared, records: seq<Record>) {
    && (forall k :: 0 <= k < |records| ==> OnDisk(s, records[k].id, records[k]))
    && (forall j, k :: 0 <= j < k < |records| ==> records[j].id != records[k].id)
    && (forall id :: id in s.files ==> exists k :: 0 <= k < |records| && records[k].id == id)
  }

  /** One recovery pass: the listed transactions are rolled back one after the
      other, also after one of them reported an error. */
  function RecoverAll(s: Shared, records: seq<Record>, logs: seq<seq<Event>>): Option<Shared>
    requires |records| == |logs|
  {
    if records == [] then Some(s) else
    var n := |records| - 1;
    match RecoverAll(s, records[..n], logs[..n])
    case None => None
    case Some(u) =>
      match Exec(records[n].id, Config(u, Thread(StartRollback, [], records[n])), logs[n])
      case None => None
      case Some(d) => if d.thread.pc.Settled? then Some(d.shared) else None
  }

  function Blockings(es: seq<Event>): nat {
    if es == [] then 0 else Blockings(es[..|es| - 1]) + (if Blocking(es[|es| - 1]) then 1 else 0)
  }

  /** The failures of Owned, Undo and Remove during a pass. */
  function PassFailures(logs: seq<seq<Event>>): nat {
    if logs == [] then 0 else PassFailures(logs[..|logs| - 1]) + Blockings(logs[|logs| - 1])
  }

  ghost predicate Sound(s: Shared) {
    Safe(s) && FilesShaped(s)
  }

  predicate Orderly(logs: seq<seq<Event>>) {
    forall k :: 0 <= k < |logs| ==> NoDeactivation(logs[k])
  }

  lemma {:induction false} NoBlockings(es: seq<Event>)
    ensures Blockings(es) == 0 <==> !exists k :: 0 <= k < |es| && Blocking(es[k])
  {
    if es != [] {
      var init := es[..|es| - 1];
      NoBlockings(init);
      if exists k :: 0 <= k < |init| && Blocking(init[k]) {
        var k :| 0 <= k < |init| && Blocking(init[k]);
        assert Blocking(es[k]);
      }
      if exists k :: 0 <= k < |es| && Blocking(es[k]) {
        var k :| 0 <= k < |es| && Blocking(es[k]);
        assert k < |init| ==> Blocking(init[k]);
      }
    }
  }

  /** One transaction of a pass: its file is gone unless one of its own calls
      failed, and no other file is touched. */
  lemma {:induction false} RollbackOne(s: Shared, rec: Record, log: seq<Event>, d: Config)
    requires Sound(s) && OnDisk(s, rec.id, rec) && NoDeactivation(log)
    requires Exec(rec.id, Config(s, Thread(StartRollback, [], rec)), log) == Some(d) && d.thread.pc.Settled?
    ensures Sound(d.shared) && d.shared.tracked == s.tracked
    ensures d.shared.files - {rec.id} == s.files - {rec.id}
    ensures Blockings(log) == 0 ==> rec.id !in d.shared.files
    ensures d.shared.held.Keys <= s.held.Keys
  {
    var c := Config(s, Thread(StartRollback, [], rec));
    ExecSafe(rec.id, c, log);
    RollbackOrderAndCoverage(rec.id, c, log, d);
    NoBlockings(log);
    ExecOnlyOwnFile(rec.id, c, log);
    RollbackOnlyWithdraws(rec.id, c, log);
  }

  lemma {:induction false} ExecOnlyOwnFile(id: string, c: Config, es: seq<Event>)
    requires Exec(id, c, es).Some?
    ensures var d := Exec(id, c, es).value; d.shared.files - {id} == c.shared.files - {id} && d.shared.tracked == c.shared.tracked
    decreases |es|
  {
    if es != [] {
      ExecOnlyOwnFile(id, c, es[..|es| - 1]);
      OtherFiles(id, Exec(id, c, es[..|es| - 1]).value, es[|es| - 1]);
    }
  }

  predicate Backward(pc: Pc) {
    pc.StartRollback? || pc.Scan? || pc.CallUndo? || pc.SaveUndone? || pc.Settled?
  }

  lemma {:induction false} RollbackOnlyWithdraws(id: string, c: Config, es: seq<Event>)
    requires Backward(c.thread.pc) && Exec(id, c, es).Some?
    ensures var d := Exec(id, c, es).value; Backward(d.thread.pc) && d.shared.held.Keys <= c.shared.held.Keys
    decreases |es|
  {
    if es != [] {
      RollbackOnlyWithdraws(id, c, es[..|es| - 1]);
    }
  }

  ghost predicate PassInv(s: Shared, records: seq<Record>, logs: seq<seq<Event>>, n: nat, u: Shared)
    requires n <= |records| == |logs|
  {
    && Sound(u) && u.tracked == s.tracked
    && u.files.Keys <= s.files.Keys && u.held.Keys <= s.held.Keys
    && (forall k :: 0 <= k < n && Blockings(logs[k]) == 0 ==> records[k].id !in u.files)
    && (forall k :: n <= k < |records| ==> OnDisk(u, records[k].id, records[k]))
  }

  lemma {:induction false} PassPrefix(s: Shared, records: seq<Record>, logs: seq<seq<Event>>, n: nat)
    requires Sound(s) && Listing(s, records) && |records| == |logs| && Orderly(logs)
    requires n <= |records| && RecoverAll(s, records[..n], logs[..n]).Some?
    ensures PassInv(s, records, logs, n, RecoverAll(s, records[..n], logs[..n]).value)
  {
    if n > 0 {
      assert records[..n][..n - 1] == records[..n - 1] && logs[..n][..n - 1] == logs[..n - 1];
      PassPrefix(s, records, logs, n - 1);
      var u := RecoverAll(s, records[..n - 1], logs[..n - 1]).value;
      var rec := records[n - 1];
      assert OnDisk(u, rec.id, rec);
      var d := Exec(rec.id, Config(u, Thread(StartRollback, [], rec)), logs[n - 1]).value;
      RollbackOne(u, rec, logs[n - 1], d);
      PassStep(s, records, logs, n, u, d.shared);
    }
  }

  lemma {:induction false} PassStep(s: Shared, records: seq<Record>, logs: seq<seq<Event>>, n: nat, u: Shared, v: Shared)
    requires Listing(s, records) && |records| == |logs| && 0 < n <= |records|
    requires PassInv(s, records, logs, n - 1, u)
    requires Sound(v) && v.tracked == u.tracked && v.held.Keys <= u.held.Keys
    requires v.files - {records[n - 1].id} == u.files - {records[n - 1].id}
    requires Blockings(logs[n - 1]) == 0 ==> records[n - 1].id !in v.files
    ensures PassInv(s, records, logs, n, v)
  {
    hide Sound, Blockings;
    var id := records[n - 1].id;
    SameElsewhere(id, u.files, v.files);
    assert OnDisk(u, id, records[n - 1]);
    forall other | other in v.files
      ensures other in s.files
    {
      assert other in u.files;
    }
    forall k | n <= k < |records|
      ensures OnDisk(v, records[k].id, records[k])
    {
      assert OnDisk(u, records[k].id, records[k]);
      assert records[k].id != id;
    }
    forall k | 0 <= k < n && Blockings(logs[k]) == 0
      ensures records[k].id !in v.files
    {
      if k < n - 1 {
        assert records[k].id !in u.files && records[k].id != id;
      }
    }
  }

  lemma {:induction false} SameElsewhere(id: string, a: map<string, Record>, b: map<string, Record>)
    requires a - {id} == b - {id}
    ensures forall other :: other != id ==> (other in a <==> other in b)
    ensures forall other :: other != id && other in a ==> b[other] == a[other]
  {
    forall other | other != id
      ensures other in a <==> other in b
      ensures other in a ==> b[other] == a[other]
    {
      assert other in a <==> other in a - {id};
      assert other in b <==> other in b - {id};
      assert other in a ==> (a - {id})[other] == a[other];
      assert other in b ==> (b - {id})[other] == b[other];
    }
  }

  function Survivors(records: seq<Record>, logs: seq<seq<Event>>): set<string>
    requires |records| == |logs|
  {
    if records == [] then {} else
    Survivors(records[..|records| - 1], logs[..|logs| - 1])
      + (if Blockings(logs[|logs| - 1]) > 0 then {records[|records| - 1].id} else {})
  }

  lemma {:induction false} SurvivorsPaid(records: seq<Record>, logs: seq<seq<Event>>)
    requires |records| == |logs|
    ensures |Survivors(records, logs)| <= PassFailures(logs)
    ensures forall k :: 0 <= k < |records| && Blockings(logs[k]) > 0 ==> records[k].id in Survivors(records, logs)
  {
    if records != [] {
      var n := |records| - 1;
      SurvivorsPaid(records[..n], logs[..n]);
      forall k | 0 <= k < |records| && Blockings(logs[k]) > 0
        ensures records[k].id in Survivors(records, logs)
      {
        assert k < n ==> records[k] == records[..n][k] && logs[k] == logs[..n][k];
      }
    }
  }

  lemma {:induction false} SubsetSize<T>(a: set<T>, b: set<T>)
    requires a <= b
    ensures |a| <= |b|
  {
    assert b == a + (b - a);
  }

  /** A pass keeps the write-ahead property, brings no file back, and every
      file it leaves behind cost it a failure of its own.  Without such a
      failure -- whatever its saves do -- the journal is empty afterwards and
      nothing is in place any more. */
  lemma {:induction false} RecoverConverges(s: Shared, records: seq<Record>, logs: seq<seq<Event>>, t: Shared)
    requires Sound(s) && Listing(s, records) && |records| == |logs| && Orderly(logs)
    requires RecoverAll(s, records, logs) == Some(t)
    ensures Sound(t) && t.tracked == s.tracked
    ensures t.files.Keys <= s.files.Keys && t.held.Keys <= s.held.Keys
    ensures |t.files| <= PassFailures(logs)
    ensures PassFailures(logs) == 0 ==> t.files == map[] && t.held == map[]
  {
    WholePass(s, records, logs, t);
    SurvivorsCover(s, records, logs, t);
    SurvivorsPaid(records, logs);
    SubsetSize(t.files.Keys, Survivors(records, logs));
    assert |t.files| == |t.files.Keys|;
    if PassFailures(logs) == 0 {
      EmptyNetwork(t);
    }
  }

  lemma {:induction false} WholePass(s: Shared, records: seq<Record>, logs: seq<seq<Event>>, t: Shared)
    requires Sound(s) && Listing(s, records) && |records| == |logs| && Orderly(logs)
    requires RecoverAll(s, records, logs) == Some(t)
    ensures PassInv(s, records, logs, |records|, t)
  {
    assert records[..|records|] == records && logs[..|logs|] == logs;
    PassPrefix(s, records, logs, |records|);
  }

  lemma {:induction false} SurvivorsCover(s: Shared, records: seq<Record>, logs: seq<seq<Event>>, t: Shared)
    requires Listing(s, records) && |records| == |logs| && PassInv(s, records, logs, |records|, t)
    ensures t.files.Keys <= Survivors(records, logs)
  {
    SurvivorsPaid(records, logs);
    forall id | id in t.files
      ensures id in Survivors(records, logs)
    {
      var k :| 0 <= k < |records| && records[k].id == id;
      assert Blockings(logs[k]) > 0;
    }
  }

  /** Without a journal file nothing can be in place. */
  lemma {:induction false} EmptyNetwork(t: Shared)
    requires Sound(t) && |t.files| == 0
    ensures t.files == map[] && t.held == map[]
  {
    assert t.files == map[];
    assert t.held == map[];
  }

  // ---- A pass as a run of the whole system ----

  lemma {:induction false} RunConcat(w: World, a: seq<Step>, u: World, b: seq<Step>)
    requires Run(w, a) == Some(u)
    ensures Run(w, a + b) == Run(u, b)
    decreases |b|
  {
    if b == [] {
      assert a + b == a;
    } else {
      RunConcat(w, a, u, b[..|b| - 1]);
      assert (a + b)[..|a + b| - 1] == a + b[..|b| - 1];
    }
  }

  /** What the first `n` rollbacks of a pass have made of the world. */
  ghost predicate PassAt(w: World, records: seq<Record>, logs: seq<seq<Event>>, n: nat, v: World)
    requires n <= |records| == |logs|
  {
    && v.mode == w.mode && v.threads.Keys == w.threads.Keys
    && RecoverAll(w.shared, records[..n], logs[..n]) == Some(v.shared)
    && (forall k :: 0 <= k < |records| ==> records[k].id in v.threads)
    && (forall k :: n <= k < |records| ==> v.threads[records[k].id] == Thread(StartRollback, [], records[k]))
    && (forall k :: 0 <= k < n && Blockings(logs[k]) == 0 ==> v.threads[records[k].id].pc == Settled(false))
  }

  lemma {:induction false} PassTurn(w: World, records: seq<Record>, logs: seq<seq<Event>>, n: nat, v: World)
    returns (turn: seq<Step>, x: World)
    requires n < |records| == |logs| && PassAt(w, records, logs, n, v) && v.mode == Recovering
    requires NoDeactivation(logs[n]) && (forall j, k :: 0 <= j < k < |records| ==> records[j].id != records[k].id)
    requires RecoverAll(w.shared, records[..n + 1], logs[..n + 1]).Some?
    ensures Run(v, turn) == Some(x) && PassAt(w, records, logs, n + 1, x)
  {
    hide Run, Exec;
    var id := records[n].id;
    assert records[..n + 1][..n] == records[..n] && logs[..n + 1][..n] == logs[..n];
    var c := Config(v.shared, Thread(StartRollback, [], records[n]));
    var d := Exec(id, c, logs[n]).value;
    SoloIsRun(v, id, logs[n], d);
    RollbackOrderAndCoverage(id, c, logs[n], d);
    NoBlockings(logs[n]);
    turn, x := Acts(id, logs[n]), v.(shared := d.shared, threads := v.threads[id := d.thread]);
  }

  lemma {:induction false} PassPrefixIsRun(w: World, records: seq<Record>, logs: seq<seq<Event>>, n: nat) returns (steps: seq<Step>, v: World)
    requires w.mode == Recovering && Listed(w.shared.files, w.threads) && Listing(w.shared, records)
    requires n <= |records| == |logs| && Orderly(logs) && RecoverAll(w.shared, records[..n], logs[..n]).Some?
    ensures Run(w, steps) == Some(v) && PassAt(w, records, logs, n, v)
  {
    if n == 0 {
      steps, v := [], w;
      PassBegins(w, records, logs);
    } else {
      PrefixDefined(w.shared, records, logs, n);
      var before, u := PassPrefixIsRun(w, records, logs, n - 1);
      var turn;
      turn, v := PassTurn(w, records, logs, n - 1, u);
      RunConcat(w, before, u, turn);
      steps := before + turn;
    }
  }

  lemma {:induction false} PrefixDefined(s: Shared, records: seq<Record>, logs: seq<seq<Event>>, n: nat)
    requires 0 < n <= |records| == |logs| && RecoverAll(s, records[..n], logs[..n]).Some?
    ensures RecoverAll(s, records[..n - 1], logs[..n - 1]).Some?
  {
    assert records[..n][..n - 1] == records[..n - 1] && logs[..n][..n - 1] == logs[..n - 1];
  }

  lemma {:induction false} PassBegins(w: World, records: seq<Record>, logs: seq<seq<Event>>)
    requires Listed(w.shared.files, w.threads) && Listing(w.shared, records) && |records| == |logs|
    ensures PassAt(w, records, logs, 0, w)
  {
    assert forall k :: 0 <= k < |records| ==> OnDisk(w.shared, records[k].id, records[k]);
  }

  /** A recovery pass is a run of the system that recovers; after a pass without
      a failed Owned, Undo or Remove the helper may serve. */
  lemma {:induction false} PassIsRun(w: World, records: seq<Record>, logs: seq<seq<Event>>, t: Shared) returns (steps: seq<Step>, v: World)
    requires w.mode == Recovering && Listed(w.shared.files, w.threads) && Listing(w.shared, records)
    requires |records| == |logs| && Orderly(logs) && RecoverAll(w.shared, records, logs) == Some(t)
    ensures Run(w, steps) == Some(v) && v.mode == Recovering && v.shared == t
    ensures PassFailures(logs) == 0 ==> Advance(v, FinishRecovery).Some?
  {
    hide Run, Exec, RecoverAll;
    assert records[..|records|] == records && logs[..|logs|] == logs;
    steps, v := PassPrefixIsRun(w, records, logs, |records|);
    if PassFailures(logs) == 0 {
      NoFailures(logs);
      forall id | id in v.threads
        ensures v.threads[id].pc == Settled(false)
      {
        assert id in w.shared.files;
        var k :| 0 <= k < |records| && records[k].id == id;
        assert Blockings(logs[k]) == 0;
      }
    }
  }

  lemma {:induction false} NoFailures(logs: seq<seq<Event>>)
    requires PassFailures(logs) == 0
    ensures forall k :: 0 <= k < |logs| ==> Blockings(logs[k]) == 0
  {
    if logs != [] {
      var n := |logs| - 1;
      NoFailures(logs[..n]);
      assert forall k :: 0 <= k < n ==> logs[k] == logs[..n][k];
    }
  }

  // ---- Repeated recovery ----

  datatype Pass = Pass(records: seq<Record>, logs: seq<seq<Event>>)

  /** Consecutive passes, each over the journal the previous one left. */
  ghost function Passes(s: Shared, ps: seq<Pass>): Option<Shared> {
    if ps == [] then Some(s) else
    match Passes(s, ps[..|ps| - 1])
    case None => None
    case Some(u) =>
      var p := ps[|ps| - 1];
      if |p.records| == |p.logs| && Listing(u, p.records) && Orderly(p.logs) then RecoverAll(u, p.records, p.logs) else None
  }

  function AllFailures(ps: seq<Pass>): nat {
    if ps == [] then 0 else AllFailures(ps[..|ps| - 1]) + PassFailures(ps[|ps| - 1].logs)
  }

  lemma {:induction false} PassesSound(s: Shared, ps: seq<Pass>)
    requires Sound(s) && Passes(s, ps).Some?
    ensures Sound(Passes(s, ps).value)
  {
    if ps != [] {
      PassesSound(s, ps[..|ps| - 1]);
      var p := ps[|ps| - 1];
      RecoverConverges(Passes(s, ps[..|ps| - 1]).value, p.records, p.logs, Passes(s, ps).value);
    }
  }

  /** With fewer failures of Owned, Undo and Remove in all than passes, the
      journal ends up empty: N failures are outlived by N + 1 passes. */
  lemma {:induction false} RepeatedRecoveryTerminates(s: Shared, ps: seq<Pass>, t: Shared)
    requires Sound(s) && Passes(s, ps) == Some(t) && AllFailures(ps) < |ps|
    ensures t.files == map[] && t.held == map[]
  {
    var init, p := ps[..|ps| - 1], ps[|ps| - 1];
    PassesSound(s, init);
    var u := Passes(s, init).value;
    RecoverConverges(u, p.records, p.logs, t);
    if PassFailures(p.logs) > 0 {
      RepeatedRecoveryTerminates(s, init, u);
    }
  }
}
