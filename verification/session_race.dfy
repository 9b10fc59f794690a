/** A race of the service: Stop can land between the assignment of the
    transaction and the mark of the monitor, and then a session is shown as
    connected whose network is gone (vpntoris-tray/internal/nativehelper/
    service.go, applyNetwork and monitor). */
module SessionRace {
  import opened Wrappers
  import opened EngineTypes
  import opened WalMachine
  import opened WalSafety
  import opened WalRuns
  import opened WalSharing
  import opened NetworkPlan
  import IPv4
  import Text
  import opened SessionMachine
  import opened SessionSafety
  import opened SessionRuns
  import opened SessionConnected
  import opened WalProgress
  import opened SessionProgress

  /** The helper with one FortiGate session and its transaction `id`. */
  function One(wal: World, s: Session, id: string, lock: Lock): System {
    System(wal, map[0 := s], map[s.profile := 0], lock, map[id := 0], {})
  }

  function Fresh(profile: string, routes: seq<string>): Session {
    NewSession(profile, FortiGateSSL, false, routes)
  }

  function BlankRecord(id: string, profile: string): Record {
    Record(1, id, "", profile, "", 0, Preparing, [])
  }

  lemma {:induction false} PlayTwo(y: System, y1: System, a: Action, b: Action)
    requires Do(y, a) == Some(y1)
    ensures Play(y, [a, b]) == Do(y1, b)
  {
    hide Do;
    PlayOne(y, [], y, a);
    assert [] + [a] == [a] && [a] + [b] == [a, b];
    PlayOne(y, [a], y1, b);
  }

  lemma {:induction false} Serves(y: System)
    requires Start(y)
    ensures Play(y, [RecoveryStarts(map[]), RecoverySucceeds]) == Some(y.(wal := y.wal.(mode := Serving)))
  {
    var y1 := y.(wal := World(Recovering, y.wal.shared, map[]));
    assert Do(y, RecoveryStarts(map[])) == Some(y1);
    PlayTwo(y, y1, RecoveryStarts(map[]), RecoverySucceeds);
  }

  lemma {:induction false} Begins(y: System, profile: string, routes: seq<string>, iface: string, id: string, plan: seq<Mutation>)
    requires Start(y.(wal := y.wal.(mode := Down))) && y.wal.mode == Serving && iface != ""
    ensures var s, r := Fresh(profile, routes), BlankRecord(id, profile);
            Play(y, [StartSession(0, profile, FortiGateSSL, false, routes, true), ActivateCall(0, iface, id, r, plan, Saved)])
              == Some(One(World(Serving, y.wal.shared.(files := map[id := r]), map[id := Thread(NextMutation, plan, r)]),
                          s.(monitor := Activating(id, iface)), id, Free))
  {
    var s, r := Fresh(profile, routes), BlankRecord(id, profile);
    var y1 := y.(table := map[0 := s], sessions := map[profile := 0]);
    var t := s.(monitor := Activating(id, iface));
    assert Do(y, StartSession(0, profile, FortiGateSSL, false, routes, true)) == Some(y1);
    assert map[0 := s][0 := t] == map[0 := t];
    PlayTwo(y, y1, StartSession(0, profile, FortiGateSSL, false, routes, true), ActivateCall(0, iface, id, r, plan, Saved));
  }

  lemma {:induction false} Assigns(wal: World, s: Session, u: Session, id: string, iface: string) returns (actions: seq<Action>)
    requires wal.mode == Serving && id in wal.threads && wal.threads[id].pc == Established
    requires s.monitor == Activating(id, iface)
    requires u == s.(monitor := Assigned(iface), activated := s.activated + 1, transaction := Some(id))
    ensures Play(One(wal, s, id, Free), actions) == Some(One(wal, u, id, Free))
  {
    var t := s.(monitor := Returned(id, iface), activated := s.activated + 1);
    ReturnsEstablished(wal, s, t, id, iface);
    TransactionAssigned(wal, t, u, id, iface);
    PlayTwo(One(wal, s, id, Free), One(wal, t, id, Free), ActivateReturns(0), AssignTransaction(0));
    actions := [ActivateReturns(0), AssignTransaction(0)];
  }

  lemma {:induction false} ReturnsEstablished(wal: World, s: Session, t: Session, id: string, iface: string)
    requires wal.mode == Serving && id in wal.threads && wal.threads[id].pc == Established
    requires s.monitor == Activating(id, iface) && t == s.(monitor := Returned(id, iface), activated := s.activated + 1)
    ensures Do(One(wal, s, id, Free), ActivateReturns(0)) == Some(One(wal, t, id, Free))
  {
    assert map[0 := s][0 := t] == map[0 := t];
  }

  lemma {:induction false} TransactionAssigned(wal: World, t: Session, u: Session, id: string, iface: string)
    requires wal.mode == Serving && t.monitor == Returned(id, iface)
    requires u == t.(monitor := Assigned(iface), transaction := Some(id))
    ensures Do(One(wal, t, id, Free), AssignTransaction(0)) == Some(One(wal, u, id, Free))
  {
    assert map[0 := t][0 := u] == map[0 := u];
  }

  lemma {:induction false} StopEnters(wal: World, s: Session, id: string)
    requires wal.mode == Serving && id in wal.threads && wal.threads[id].pc == Established && s.transaction == Some(id)
    ensures Do(One(wal, s, id, Free), StopCall(s.profile, {}))
              == Some(One(wal.(threads := wal.threads[id := wal.threads[id].(pc := StartRollback)]),
                          s.(released := s.released + 1), id, Inside(StopSection, 0)))
  {
    var t := s.(released := s.released + 1);
    assert map[0 := s][0 := t] == map[0 := t];
  }

  lemma {:induction false} Marks(wal: World, s: Session, id: string, iface: string)
    requires wal.mode == Serving && id in wal.threads && wal.threads[id].pc.Settled?
    requires s.transaction == Some(id) && s.monitor == Assigned(iface)
    ensures Play(One(wal, s, id, Inside(StopSection, 0)), [SectionEnds, MarkConnected(0)])
              == Some(One(wal, AfterStop(s).(iface := iface, state := Connected, monitor := AwaitExit), id, Free))
  {
    hide EnterRelease, DoEngine;
    var t := AfterStop(s);
    var u := t.(iface := iface, state := Connected, monitor := AwaitExit);
    assert map[0 := s][0 := t] == map[0 := t] && map[0 := t][0 := u] == map[0 := u];
    assert Do(One(wal, s, id, Inside(StopSection, 0)), SectionEnds) == Some(One(wal, t, id, Free));
    PlayTwo(One(wal, s, id, Inside(StopSection, 0)), One(wal, t, id, Free), SectionEnds, MarkConnected(0));
  }

  /** Every plan can be established: the helper starts, serves, begins the
      session and assigns its transaction, and everything the plan tracks is in
      place. */
  lemma {:induction false} CanConnect(y: System, profile: string, routes: seq<string>, iface: string, id: string, plan: seq<Mutation>)
    returns (actions: seq<Action>, wal: World, s: Session)
    requires Start(y) && iface != ""
    ensures Play(y, actions) == Some(One(wal, s, id, Free))
    ensures wal.mode == Serving && wal.threads.Keys == {id} && wal.threads[id].pc == Established
    ensures wal.shared.held.Keys == Footprint(y.wal.shared.tracked, plan)
    ensures s == Fresh(profile, routes).(monitor := Assigned(iface), activated := 1, transaction := Some(id))
  {
    var r := BlankRecord(id, profile);
    var t := Fresh(profile, routes).(monitor := Activating(id, iface));
    var w := World(Serving, y.wal.shared.(files := map[id := r]), map[id := Thread(NextMutation, plan, r)]);
    var first := CanBegin(y, profile, routes, iface, id, plan, w, t);
    var engine;
    engine, wal := CanActivate(w, t, id, y.wal.shared, r, plan);
    s := t.(monitor := Assigned(iface), activated := 1, transaction := Some(id));
    var assignment := Assigns(wal, t, s, id, iface);
    actions := JoinThree(y, One(w, t, id, Free), One(wal, t, id, Free), One(wal, s, id, Free), first, engine, assignment);
  }

  lemma {:induction false} CanBegin(y: System, profile: string, routes: seq<string>, iface: string, id: string, plan: seq<Mutation>,
                                    w: World, t: Session)
    returns (actions: seq<Action>)
    requires Start(y) && iface != "" && t == Fresh(profile, routes).(monitor := Activating(id, iface))
    requires var r := BlankRecord(id, profile);
             w == World(Serving, y.wal.shared.(files := map[id := r]), map[id := Thread(NextMutation, plan, r)])
    ensures Play(y, actions) == Some(One(w, t, id, Free))
  {
    var y1 := y.(wal := y.wal.(mode := Serving));
    Serves(y);
    Begins(y1, profile, routes, iface, id, plan);
    var a := [RecoveryStarts(map[]), RecoverySucceeds];
    var b := [StartSession(0, profile, FortiGateSSL, false, routes, true),
              ActivateCall(0, iface, id, BlankRecord(id, profile), plan, Saved)];
    PlayAppend(y, a, y1, b);
    actions := a + b;
  }

  lemma {:induction false} CanActivate(w: World, t: Session, id: string, s0: Shared, record: Record, plan: seq<Mutation>)
    returns (actions: seq<Action>, wal: World)
    requires s0.files == map[] && s0.held == map[] && Blank(record, id)
    requires w == World(Serving, s0.(files := map[id := record]), map[id := Thread(NextMutation, plan, record)])
    ensures Play(One(w, t, id, Free), actions) == Some(One(wal, t, id, Free))
    ensures wal.mode == Serving && id in wal.threads && wal.threads.Keys == {id} && wal.threads[id].pc == Established
    ensures wal.shared.held.Keys == Footprint(s0.tracked, plan)
  {
    var c := Config(w.shared, w.threads[id]);
    var es, d := CanEstablish(id, c);
    PlanEstablished(id, s0, record, plan, c, es, d);
    PlayEngine(One(w, t, id, Free), id, es, d);
    actions, wal := EngineActions(id, es), World(Serving, d.shared, w.threads[id := d.thread]);
  }

  lemma {:induction false} PlanEstablished(id: string, s0: Shared, record: Record, plan: seq<Mutation>,
                                           c: Config, es: seq<Event>, d: Config)
    requires s0.files == map[] && s0.held == map[] && Begun(id, s0, record, plan, c)
    requires Exec(id, c, es) == Some(d) && d.thread.pc == Established
    ensures d.shared.held.Keys == Footprint(s0.tracked, plan)
  {
    ActivateAllOrNothing(id, s0, record, plan, c, es, d);
  }

  /** For every plan: Stop may release the network of a session that has its
      transaction before the monitor marks it, and then the session is shown as
      connected although all that was in place is gone. */
  lemma {:induction false} StopBeforeMark(y: System, profile: string, routes: seq<string>, iface: string, id: string, plan: seq<Mutation>)
    returns (before: seq<Action>, m: System, after: seq<Action>, z: System)
    requires Start(y) && iface != ""
    ensures Play(y, before) == Some(m) && Play(m, after) == Some(z)
    ensures 0 in m.table && m.table[0].transaction == Some(id) && m.table[0].monitor == Assigned(iface)
    ensures m.wal.shared.held.Keys == Footprint(y.wal.shared.tracked, plan)
    ensures 0 in z.table && z.table[0].state == Connected && z.lock == Free && z.blemished == {}
    ensures z.table[0].transaction == None && z.table[0].activated == 1 && z.table[0].released == 1
    ensures z.wal.shared.held == map[] && z.wal.shared.files == map[]
  {
    var wal, s;
    before, wal, s := CanConnect(y, profile, routes, iface, id, plan);
    m := One(wal, s, id, Free);
    after, z := CanStopAndMark(m, wal, s, id, iface);
    StartsProperly(y);
    PlayKeepsInv(y, before);
    PlayKeepsInv(m, after);
    NothingLeft(z, id);
  }

  lemma {:induction false} CanStopAndMark(m: System, wal: World, s: Session, id: string, iface: string)
    returns (after: seq<Action>, z: System)
    requires m == One(wal, s, id, Free) && wal.mode == Serving && id in wal.threads && wal.threads[id].pc == Established
    requires s.transaction == Some(id) && s.monitor == Assigned(iface)
    ensures Play(m, after) == Some(z) && z.wal.threads.Keys == wal.threads.Keys && z.wal.threads[id].pc == Settled(false)
    ensures z == One(z.wal, AfterStop(s).(iface := iface, state := Connected, monitor := AwaitExit, released := s.released + 1), id, Free)
    ensures z.wal.mode == Serving
  {
    var lock, t := Inside(StopSection, 0), s.(released := s.released + 1);
    var w1 := wal.(threads := wal.threads[id := wal.threads[id].(pc := StartRollback)]);
    StopEnters(wal, s, id);
    PlayOne(m, [], m, StopCall(s.profile, {}));
    var es, d := CanRollBack(id, Config(w1.shared, w1.threads[id]));
    PlayEngine(One(w1, t, id, lock), id, es, d);
    var w2 := World(Serving, d.shared, w1.threads[id := d.thread]);
    Marks(w2, t, id, iface);
    z := One(w2, AfterStop(t).(iface := iface, state := Connected, monitor := AwaitExit), id, Free);
    after := JoinThree(m, One(w1, t, id, lock), One(w2, t, id, lock), z,
                       [] + [StopCall(s.profile, {})], EngineActions(id, es), [SectionEnds, MarkConnected(0)]);
  }

  lemma {:induction false} JoinThree(y: System, y1: System, y2: System, y3: System,
                                     a: seq<Action>, b: seq<Action>, c: seq<Action>) returns (all: seq<Action>)
    requires Play(y, a) == Some(y1) && Play(y1, b) == Some(y2) && Play(y2, c) == Some(y3)
    ensures Play(y, all) == Some(y3)
  {
    PlayAppend(y, a, y1, b);
    PlayAppend(y, a + b, y2, c);
    all := a + b + c;
  }

  lemma {:induction false} NothingLeft(z: System, id: string)
    requires SystemInv(z) && z.wal.mode == Serving && z.blemished == {}
    requires z.wal.threads.Keys == {id} && z.wal.threads[id].pc == Settled(false)
    ensures z.wal.shared.held == map[] && z.wal.shared.files == map[]
  {
    assert ThreadInv(z.wal.shared, id, z.wal.threads[id]);
    forall other
      ensures other !in z.wal.shared.files
    {
    }
    assert z.wal.shared.files == map[];
  }

  // ---- The plans the service really has ----

  /** Every plan that BuildNetworkPlan makes has the process, the interface and
      at least one route. */
  lemma {:induction false} PlanHasRoute(n: ProfileNetwork, plan: Plan)
    requires IsPlan(n, plan)
    ensures |plan.mutations| >= 3 && plan.mutations[0].kind == Process && plan.mutations[1].kind == Interface
    ensures plan.mutations[2].kind == Route && plan.mutations[2].iface == n.iface != ""
  {
    var servers := Text.Join(Text.TrimAll(n.dnsServers), ',');
    var ps :| Canonical(ps, n.routes) && plan == PlanOf(n, ps, servers);
    RoutesGivePrefixes(n.routes, ps);
    PlanShape(n, ps, servers);
  }

  lemma {:induction false} RoutesGivePrefixes(routes: seq<string>, ps: seq<IPv4.Prefix>)
    requires RoutesPlannable(routes) && Canonical(ps, routes)
    ensures |ps| >= 1
  {
    assert Denoted(routes[0]).Ok?;
    assert Denotes(routes, Denoted(routes[0]).value);
    assert Denoted(routes[0]).value in ps;
  }

  lemma {:induction false} PlanShape(n: ProfileNetwork, ps: seq<IPv4.Prefix>, servers: string)
    requires n.processID >= 1 && |ps| >= 1
    ensures var ms := PlanOf(n, ps, servers).mutations;
            && |ms| >= 3 && ms[0].kind == Process && ms[1].kind == Interface
            && ms[2] == RouteMutation(n.iface, ps[0])
  {
  }

  /** The race for the settings of any profile: the first route of its plan is
      in place while the session has its transaction, and gone when the session
      is shown as connected. */
  lemma {:induction false} ProfileRace(y: System, n: ProfileNetwork, plan: Plan, id: string)
    returns (before: seq<Action>, m: System, after: seq<Action>, z: System)
    requires Start(y) && Route in y.wal.shared.tracked && IsPlan(n, plan)
    ensures |plan.mutations| >= 3 && plan.mutations[2].kind == Route
    ensures Play(y, before) == Some(m) && Play(m, after) == Some(z)
    ensures 0 in m.table && m.table[0].transaction == Some(id) && plan.mutations[2].resource in m.wal.shared.held
    ensures 0 in z.table && z.table[0].state == Connected && z.lock == Free && z.blemished == {}
    ensures z.table[0].transaction == None && plan.mutations[2].resource !in z.wal.shared.held
  {
    PlanHasRoute(n, plan);
    before, m, after, z := StopBeforeMark(y, n.profile, n.routes, n.iface, id, plan.mutations);
    assert plan.mutations[2] in plan.mutations;
  }

  /** The helper can die with the network of a session in place. */
  lemma {:induction false} CanDieConnected(y: System, n: ProfileNetwork, plan: Plan, id: string)
    returns (actions: seq<Action>, z: System)
    requires Start(y) && Route in y.wal.shared.tracked && IsPlan(n, plan)
    ensures |plan.mutations| >= 3 && plan.mutations[2].kind == Route
    ensures Play(y, actions) == Some(z) && z.wal.mode == Down && z.table == map[]
    ensures var r, s := plan.mutations[2].resource, z.wal.shared; r in s.held && s.held[r] in s.files
  {
    PlanHasRoute(n, plan);
    var before, m, after, connected := StopBeforeMark(y, n.profile, n.routes, n.iface, id, plan.mutations);
    assert plan.mutations[2] in plan.mutations;
    PlayOne(y, before, m, HelperDies);
    DeathKeepsNetwork(y, before, m, plan.mutations[2].resource);
    actions, z := before + [HelperDies], Dead(m);
  }
}
