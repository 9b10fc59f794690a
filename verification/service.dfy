/** The service and its sessions as objects (vpntoris-tray/internal/
    nativehelper/service.go).  A method is one critical section; its contract
    says that it does to the session what the corresponding section of
    SessionMachine does, and which run of the engine it made. */
module Service {
  import opened Wrappers
  import opened EngineTypes
  import opened WalMachine
  import opened WalRuns
  import opened WalRecovery
  import opened SessionMachine
  import opened Engine
  import opened Challenge
  import Credentials

  class SessionObject {
    const profile: string
    const protocol: Protocol
    const routes: seq<string>
    var state: SessionState
    var transaction: Engine.Transaction?
    var interfaceName: string
    var input: bool
    var log: bool
    var management: bool
    var errorText: string
    var username: ByteString
    var password: ByteString
    var challenge: string
    var challengeState: ByteString
    ghost var exited: bool
    ghost var monitor: Monitor
    ghost var activated: nat
    ghost var released: nat
    ghost var finishes: nat

    constructor (profile: string, protocol: Protocol, routes: seq<string>, username: ByteString, password: ByteString)
      ensures View() == NewSession(profile, protocol, false, routes)
      ensures this.username == username && this.password == password && challenge == ""
    {
      this.username, this.password, challenge, challengeState := username, password, "", "";
      this.profile, this.protocol, this.routes := profile, protocol, routes;
      state, transaction, interfaceName, errorText := Connecting, null, "", "";
      input, log, management := protocol != OpenVPN, true, false;
      exited, monitor, activated, released, finishes := false, Watching, 0, 0, 0;
    }

    ghost function View(): Session
      reads this
    {
      Session(profile, protocol, routes, state, if transaction == null then None else Some(transaction.id), interfaceName,
              input, log, management, exited, monitor, activated, released, finishes)
    }
  }

  /** What a release of the session starts from. */
  datatype Due = Due(state: SessionState, record: Option<Record>, iface: string, routes: seq<string>)

  /** The calls in between were one complete rollback of the transaction. */
  ghost predicate RolledBack(before: Moment, record: Record, after: Moment) {
    && before.calls <= after.calls && after.deletions == before.deletions
    && var log := after.calls[|before.calls|..];
       var run := Exec(record.id, Config(before.shared, Thread(StartRollback, [], record)), log);
       NoDeactivation(log) && run.Some? && run.value.thread.pc.Settled? && run.value.shared == after.shared
  }

  /** A release: one complete rollback for a transaction, one deletion of the
      routes for an interface without one, otherwise nothing. */
  ghost predicate Released(due: Due, before: Moment, after: Moment) {
    match due.record
    case Some(record) => RolledBack(before, record, after)
    case None =>
      if due.iface == "" then after == before
      else
        exists gone :: gone <= Own(due)
                       && after == Moment(before.shared.(held := before.shared.held - gone), before.calls,
                                          before.deletions + [Deletion(due.iface, due.routes, gone)])
  }

  /** The routes of a session without a transaction, by name. */
  function Own(due: Due): set<string> {
    if due.iface == "" then {} else set route | route in due.routes :: RouteResource(due.iface, route)
  }

  datatype Standing = Standing(view: Session, reach: set<object>, due: Due)

  /** Reset at one session. */
  datatype Turn = Turn(profile: string, due: Due, before: Moment, after: Moment)

  /** A session that is not stopped is released, a stopped one left alone. */
  ghost predicate Turned(turn: Turn) {
    if turn.due.state == Stopped then turn.after == turn.before else Released(turn.due, turn.before, turn.after)
  }

  /** One turn after the other, from `s` to `t`. */
  ghost predicate Chained(s: Moment, turns: seq<Turn>, t: Moment)
    decreases |turns|
  {
    if turns == [] then t == s
    else
      var n := |turns| - 1;
      Turned(turns[n]) && turns[n].after == t && Chained(s, turns[..n], turns[n].before)
  }

  ghost function Profiles(turns: seq<Turn>): set<string> {
    set turn | turn in turns :: turn.profile
  }

  /** Every session but those of `todo` has had one turn. */
  ghost predicate InOrder(turns: seq<Turn>, was: map<string, Standing>, todo: set<string>) {
    && |turns| + |todo| == |was.Keys| && Profiles(turns) == was.Keys - todo
    && forall k :: 0 <= k < |turns| ==> turns[k].profile in was && turns[k].due == was[turns[k].profile].due
  }

  lemma {:induction false} NoTurns(s: Moment, was: map<string, Standing>)
    ensures Chained(s, [], s) && InOrder([], was, was.Keys)
  {
  }

  lemma {:induction false} EachOnce(turns: seq<Turn>, was: map<string, Standing>)
    requires InOrder(turns, was, {})
    ensures |turns| == |was.Keys| && forall p :: p in was ==> exists k :: 0 <= k < |turns| && turns[k].profile == p
    ensures forall k :: 0 <= k < |turns| ==> turns[k].profile in was && turns[k].due == was[turns[k].profile].due
  {
    forall p | p in was
      ensures exists k :: 0 <= k < |turns| && turns[k].profile == p
    {
      assert p in Profiles(turns);
      var turn :| turn in turns && turn.profile == p;
      var k :| 0 <= k < |turns| && turns[k] == turn;
    }
  }

  lemma {:induction false} OneMoreTurn(s: Moment, turns: seq<Turn>, turn: Turn, was: map<string, Standing>, todo: set<string>)
    requires Chained(s, turns, turn.before) && Turned(turn) && InOrder(turns, was, todo)
    requires todo <= was.Keys && turn.profile in todo && turn.due == was[turn.profile].due
    ensures Chained(s, turns + [turn], turn.after) && InOrder(turns + [turn], was, todo - {turn.profile})
  {
    hide Turned;
    assert (turns + [turn])[..|turns|] == turns;
    OneMoreProfile(turns, turn, was, todo);
  }

  lemma {:induction false} OneMoreProfile(turns: seq<Turn>, turn: Turn, was: map<string, Standing>, todo: set<string>)
    requires InOrder(turns, was, todo)
    requires todo <= was.Keys && turn.profile in todo && turn.due == was[turn.profile].due
    ensures InOrder(turns + [turn], was, todo - {turn.profile})
  {
    assert Profiles(turns + [turn]) == Profiles(turns) + {turn.profile};
  }

  class Helper {
    const manager: Manager
    var sessions: map<string, SessionObject>

    constructor (manager: Manager)
      ensures this.manager == manager && sessions == map[]
    {
      this.manager, sessions := manager, map[];
    }

    /** No two profiles share a session, no two sessions a transaction. */
    ghost predicate Distinct()
      reads this, sessions.Values
    {
      forall p, q :: p in sessions && q in sessions && p != q ==>
        && sessions[p] != sessions[q]
        && (sessions[p].transaction == null || sessions[p].transaction != sessions[q].transaction)
    }

    ghost function DueOf(current: SessionObject): Due
      reads current, (if current.transaction == null then {} else {current.transaction as object})
    {
      Due(current.state, if current.transaction == null then None else Some(current.transaction.Snapshot()),
          current.interfaceName, current.routes)
    }

    /** What releasing this session may touch. */
    ghost function Reach(current: SessionObject): set<object>
      reads current
    {
      {current as object}
      + (if current.transaction != null then {manager.journal, manager.backend, manager.trace, current.transaction as object}
         else if current.interfaceName != "" then {manager.backend, manager.trace as object} else {})
    }

    /** The session without its network, the release of a transaction counted. */
    ghost function Let(current: SessionObject): Session
      reads current
    {
      current.View().(transaction := None, iface := "",
                      released := current.released + if current.transaction == null then 0 else 1)
    }

    method ReleaseNetworkLocked(current: SessionObject)
      modifies Reach(current)
      ensures current.View() == old(Let(current))
      ensures current.errorText == old(current.errorText)
      ensures Released(old(DueOf(current)), old(manager.Now()), manager.Now())
    {
      hide Exec, Fire;
      if current.transaction != null {
        var failed := manager.Deactivate(current.transaction, []);
        current.transaction := null;
        current.released := current.released + 1;
        current.interfaceName := "";
        return;
      }
      if current.interfaceName != "" {
        var gone := manager.backend.DeleteRoutes(current.interfaceName, current.routes, manager.trace);
        current.interfaceName := "";
      }
    }

    method StopLocked(current: SessionObject)
      modifies Reach(current)
      ensures current.View() == old(Let(current)).(input := false, management := false, state := Stopped)
      ensures current.View() == WholeSection(old(current.View()), StopSection)
      ensures current.errorText == old(current.errorText)
      ensures Released(old(DueOf(current)), old(manager.Now()), manager.Now())
    {
      ReleaseNetworkLocked(current);
      current.input := false;
      current.management := false;
      current.state := Stopped;
    }

    method Fail(current: SessionObject, message: string, ghost byMonitor: bool)
      modifies Reach(current)
      ensures current.View() == old(Let(current)).(input := false, management := false, state := Failure,
                                                   monitor := if byMonitor then AwaitExit else old(current.monitor))
      ensures current.View() == WholeSection(old(current.View()), FailSection(byMonitor)) && current.errorText == message
      ensures Released(old(DueOf(current)), old(manager.Now()), manager.Now())
    {
      hide Released;
      current.errorText := message;
      StopLocked(current);
      current.state := Failure;
      if byMonitor {
        current.monitor := AwaitExit;
      }
    }

    /** `waitError` is the error of Wait, empty when there was none. */
    method Finish(current: SessionObject, waitError: string)
      modifies Reach(current)
      ensures current.View() == old(Let(current)).(input := false, log := false, management := false,
                                                   state := if old(current.state) == Stopped then Stopped else Failure,
                                                   monitor := Finished, finishes := old(current.finishes) + 1)
      ensures current.View() == WholeSection(old(current.View()), FinishSection)
      ensures current.errorText ==
                if old(current.state) == Stopped then old(current.errorText)
                else if waitError != "" then waitError else "VPN process exited"
      ensures Released(old(DueOf(current)), old(manager.Now()), manager.Now())
    {
      ReleaseNetworkLocked(current);
      Conclude(current, waitError);
    }

    /** The part of finish after the network is released. */
    method Conclude(current: SessionObject, waitError: string)
      modifies current
      ensures current.transaction == old(current.transaction) && current.interfaceName == old(current.interfaceName)
      ensures current.View() == AfterFinish(old(current.View())).(transaction := old(current.View()).transaction,
                                                                  iface := old(current.View()).iface)
      ensures current.errorText ==
                if old(current.state) == Stopped then old(current.errorText)
                else if waitError != "" then waitError else "VPN process exited"
    {
      current.input := false;
      current.log := false;
      current.management := false;
      current.monitor := Finished;
      current.finishes := current.finishes + 1;
      if current.state == Stopped {
        return;
      }
      current.state := Failure;
      current.errorText := if waitError != "" then waitError else "VPN process exited";
    }

    /** stopLocked for a session without a network, whose monitor never starts. */
    method StopUnstarted(current: SessionObject)
      requires current.transaction == null && current.interfaceName == ""
      modifies current
      ensures current.View() == AfterStop(old(current.View())).(monitor := Unstarted)
      ensures manager.Now() == old(manager.Now())
    {
      StopLocked(current);
      current.monitor := Unstarted;
    }

    /** Only a stopped or failed session of the profile gives way to a new one. */
    predicate Startable(profile: string)
      reads this, sessions.Values
    {
      profile in sessions ==> sessions[profile].state == Stopped || sessions[profile].state == Failure
    }

    /** `launched`: the manifest, the pipes, the log, the configuration and the
        process are in order.  `written`: the credentials could be handed over. */
    method Start(profile: string, protocol: Protocol, twoFactor: bool, routes: seq<string>,
                 username: ByteString, password: ByteString, launched: bool, written: bool)
      returns (accepted: bool)
      requires Distinct()
      modifies this`sessions
      ensures var startable := profile in old(sessions) ==>
                                 old(sessions[profile].state) == Stopped || old(sessions[profile].state) == Failure;
              && startable == old(Startable(profile))
              && (accepted <==> startable && launched && written)
      ensures !(old(Startable(profile)) && launched) ==> sessions == old(sessions)
      ensures old(Startable(profile)) && launched ==>
                && profile in sessions && fresh(sessions[profile]) && sessions == old(sessions)[profile := sessions[profile]]
                && sessions[profile].View() ==
                     Session(profile, protocol, routes,
                             if !accepted then Stopped else if twoFactor && protocol != OpenVPN then WaitingOtp else Connecting,
                             None, "", accepted && protocol != OpenVPN, true, false, false,
                             if accepted then Watching else Unstarted, 0, 0, 0)
                && var s := NewSession(profile, protocol, twoFactor, routes);
                   sessions[profile].View() == if accepted then s else AfterStop(s).(monitor := Unstarted)
      ensures accepted ==>
                sessions[profile].username == username && sessions[profile].password == password && sessions[profile].challenge == ""
      ensures Distinct() && manager.Now() == old(manager.Now())
    {
      if profile in sessions && sessions[profile].state != Stopped && sessions[profile].state != Failure {
        return false;
      }
      if !launched {
        return false;
      }
      var current := new SessionObject(profile, protocol, routes, username, password);
      sessions := sessions[profile := current];
      if protocol != OpenVPN && !written {
        StopUnstarted(current);
        return false;
      }
      if (protocol == OpenConnect || protocol == FortiGateSSL) && twoFactor {
        current.state := WaitingOtp;
      }
      if !written {
        StopUnstarted(current);
        return false;
      }
      return true;
    }

    /** The branch of SendOTP for OpenVPN. */
    method AnswerChallenge(current: SessionObject, otp: ByteString, delivered: bool) returns (accepted: bool, sent: string)
      modifies current
      ensures accepted == (current.management && old(current.challenge) != "" && delivered)
      ensures !accepted ==> unchanged(current)
      ensures accepted ==>
                && current.View() == old(current.View()).(state := Connecting)
                && current.challenge == "" && current.password == ""
                && sent == Credentials.ManagementText(old(current.username),
                             ChallengePassword(old(current.challenge), old(current.challengeState), old(current.password), otp))
    {
      hide ChallengePassword, Credentials.ManagementText;
      if !current.management || current.challenge == "" {
        return false, "";
      }
      var password := ChallengePassword(current.challenge, current.challengeState, current.password, otp);
      sent := Credentials.ManagementText(current.username, password);
      if !delivered {
        return false, sent;
      }
      current.password := "";
      current.challenge := "";
      current.challengeState := "";
      current.state := Connecting;
      return true, sent;
    }

    /** `delivered`: writing to the channel did not fail.  `sent` is what was
        written: a challenge of OpenVPN is answered once, and the password is
        forgotten with it. */
    method SendOTP(profile: string, otp: ByteString, delivered: bool) returns (accepted: bool, sent: string)
      modifies (if profile in sessions then {sessions[profile]} else {})
      ensures accepted ==> profile in sessions
      ensures !accepted && profile in sessions ==> unchanged(sessions[profile])
      ensures profile in sessions ==>
                var c := sessions[profile];
                var s := old(c.View());
                && accepted == ((s.state == Connecting || s.state == WaitingOtp) && delivered
                                && (if s.protocol == OpenVPN then s.management && old(c.challenge) != "" else s.input))
                && c.View() == (if accepted then s.(state := Connecting) else s)
      ensures accepted ==>
                var c := sessions[profile];
                if c.protocol == OpenVPN then
                  && c.challenge == "" && c.password == ""
                  && sent == Credentials.ManagementText(old(c.username),
                               ChallengePassword(old(c.challenge), old(c.challengeState), old(c.password), otp))
                else
                  sent == otp + "\n" && c.password == old(c.password)
    {
      sent := "";
      if profile !in sessions {
        return false, sent;
      }
      var current := sessions[profile];
      if current.state != Connecting && current.state != WaitingOtp {
        return false, sent;
      }
      if current.protocol == OpenVPN {
        accepted, sent := AnswerChallenge(current, otp, delivered);
        return;
      }
      if !current.input {
        return false, sent;
      }
      sent := otp + "\n";
      if !delivered {
        return false, sent;
      }
      current.state := Connecting;
      return true, sent;
    }

    method Stop(profile: string)
      modifies (if profile in sessions then Reach(sessions[profile]) else {})
      ensures profile in sessions ==>
                && sessions[profile].View() == WholeSection(old(sessions[profile].View()), StopSection)
                && sessions[profile].state == Stopped && !sessions[profile].input && sessions[profile].transaction == null
      ensures if profile in sessions then Released(old(DueOf(sessions[profile])), old(manager.Now()), manager.Now())
              else manager.Now() == old(manager.Now())
    {
      if profile !in sessions {
        return;
      }
      StopLocked(sessions[profile]);
    }

    /** Everything Reset may touch. */
    ghost function AllReach(): set<object>
      reads this, sessions.Values
    {
      set p, o | p in sessions && o in Reach(sessions[p]) :: o
    }

    /** What Reset does to a session. */
    ghost function ResetView(s: Session): Session {
      if s.state == Stopped then s else WholeSection(s, StopSection)
    }

    /** All that Reset needs to know of a session. */
    ghost function StandingOf(current: SessionObject): Standing
      reads current, (if current.transaction == null then {} else {current.transaction as object})
    {
      Standing(current.View(), Reach(current), DueOf(current))
    }

    lemma {:induction false} Stands(current: SessionObject)
      ensures StandingOf(current) == Standing(current.View(), Reach(current), DueOf(current))
    {
    }

    /** Releasing one session touches no other one. */
    lemma {:induction false} Apart(p: string)
      requires Distinct() && p in sessions
      ensures forall q :: q in sessions && q != p ==> Reach(sessions[p]) !! Whole(sessions[q])
    {
    }

    ghost function Whole(current: SessionObject): set<object>
      reads current
    {
      {current as object} + if current.transaction == null then {} else {current.transaction as object}
    }

    method StopAmong(p: string)
      requires Distinct() && p in sessions
      modifies Reach(sessions[p])
      ensures sessions == old(sessions) && Distinct()
      ensures sessions[p].View() == WholeSection(old(sessions[p].View()), StopSection)
      ensures Released(old(DueOf(sessions[p])), old(manager.Now()), manager.Now())
      ensures forall q :: q in sessions && q != p ==> StandingOf(sessions[q]) == old(StandingOf(sessions[q]))
    {
      hide Released, WholeSection;
      Apart(p);
      StopLocked(sessions[p]);
    }

    /** The body of the loop of Reset. */
    method ResetOne(p: string) returns (ghost turn: Turn)
      requires Distinct() && p in sessions
      modifies Reach(sessions[p])
      ensures sessions == old(sessions) && Distinct()
      ensures StandingOf(sessions[p]).view == ResetView(old(StandingOf(sessions[p])).view)
      ensures Turned(turn) && turn.profile == p && turn.due == old(StandingOf(sessions[p])).due
      ensures turn.before == old(manager.Now()) && turn.after == manager.Now()
      ensures forall q :: q in sessions && q != p ==> StandingOf(sessions[q]) == old(StandingOf(sessions[q]))
    {
      hide Released, Distinct, Reach;
      ghost var due, before := DueOf(sessions[p]), manager.Now();
      if sessions[p].state != Stopped {
        StopAmong(p);
      }
      turn := Turn(p, due, before, manager.Now());
    }

    /** A record of all sessions. */
    lemma {:induction false} Standings(profiles: set<string>) returns (was: map<string, Standing>)
      requires profiles <= sessions.Keys
      ensures was.Keys == profiles && forall p :: p in profiles ==> was[p] == StandingOf(sessions[p])
    {
      hide StandingOf;
      was := map[];
      if profiles != {} {
        var p :| p in profiles;
        was := Standings(profiles - {p});
        was := was[p := StandingOf(sessions[p])];
      }
    }

    /** The loop of Reset; `was` is what the sessions were before it. */
    method ResetEach(ghost frame: set<object>, ghost was: map<string, Standing>) returns (ghost turns: seq<Turn>)
      requires Distinct() && this !in frame && was.Keys == sessions.Keys
      requires forall p :: p in sessions ==> StandingOf(sessions[p]) == was[p] && was[p].reach <= frame
      modifies frame
      ensures sessions == old(sessions)
      ensures forall p :: p in sessions ==> StandingOf(sessions[p]).view == ResetView(was[p].view)
      ensures Chained(old(manager.Now()), turns, manager.Now()) && InOrder(turns, was, {})
    {
      hide Reach, ResetView, SessionObject.View, DueOf, Turned, Distinct, Chained, StandingOf, InOrder;
      var todo := sessions.Keys;
      turns := [];
      NoTurns(manager.Now(), was);
      while todo != {}
        invariant todo <= sessions.Keys && sessions == old(sessions) && Distinct()
        invariant forall p :: p in todo ==> StandingOf(sessions[p]) == was[p]
        invariant forall p :: p in sessions.Keys && p !in todo ==> StandingOf(sessions[p]).view == ResetView(was[p].view)
        invariant Chained(old(manager.Now()), turns, manager.Now()) && InOrder(turns, was, todo)
        decreases |todo|
      {
        var p :| p in todo;
        Stands(sessions[p]);
        ghost var turn := ResetOne(p);
        OneMoreTurn(old(manager.Now()), turns, turn, was, todo);
        turns := turns + [turn];
        todo := todo - {p};
      }
    }

    /** Every session ends stopped, without network, input or management, and
        nothing else about it changes. */
    lemma {:induction false} ResetStops(s: Session)
      ensures ResetView(s) ==
                if s.state == Stopped then s
                else s.(transaction := None, iface := "", released := s.released + if s.transaction.Some? then 1 else 0,
                        input := false, management := false, state := Stopped)
    {
    }

    lemma {:induction false} ReachCovered()
      ensures forall p :: p in sessions ==> Reach(sessions[p]) <= AllReach()
      ensures this !in AllReach()
    {
      forall p | p in sessions
        ensures this !in Reach(sessions[p])
      {
      }
      hide Reach;
      forall p, o | p in sessions && o in Reach(sessions[p])
        ensures o in AllReach()
      {
      }
    }

    /** Each session once, in some order: those that are not stopped are released
        one after the other. */
    method Reset() returns (ghost turns: seq<Turn>)
      requires Distinct()
      modifies this`sessions, AllReach()
      ensures sessions == map[]
      ensures forall p :: p in old(sessions) ==> old(sessions)[p].View() == ResetView(old(sessions[p].View()))
      ensures Chained(old(manager.Now()), turns, manager.Now()) && |turns| == |old(sessions.Keys)|
      ensures forall p :: p in old(sessions) ==> exists k :: 0 <= k < |turns| && turns[k].profile == p
      ensures forall k :: 0 <= k < |turns| ==>
                turns[k].profile in old(sessions) && turns[k].due == old(DueOf(sessions[turns[k].profile]))
    {
      hide AllReach, Reach, ResetView, SessionObject.View, DueOf, Turned, Distinct, Chained, InOrder;
      ghost var was := Standings(sessions.Keys);
      ReachCovered();
      turns := ResetEach(AllReach(), was);
      EachOnce(turns, was);
      sessions := map[];
    }

    /** Where the transaction that Activate began with `plan` has got to: `end`
        is reached by the calls made after the first save. */
    ghost predicate Led(before: Moment, plan: Plan, id: string, now: nat, end: Config)
      reads manager.journal, manager.backend, manager.trace
    {
      var record := manager.journal.BlankRecord(id, plan.profile, now);
      && Ran(id, Config(before.shared.(files := before.shared.files[id := record]), Thread(NextMutation, plan.mutations, record)),
             before.calls + [Resaved(Saved)], manager.trace.events, end)
      && end.shared == manager.World()
    }

    /** Whether Activate gets beyond Begin. */
    predicate Beginnable(plan: Option<Plan>, draw: Option<string>, now: nat, disk: SaveOutcome)
    {
      plan.Some? && manager.journal.Savable(plan.value.profile, draw, now) && disk == Saved
    }

    /** Activate outside the lock, then the assignment of what it returned.
        `plan` is what BuildNetworkPlan made, None when it refused. */
    method ApplyNetwork(current: SessionObject, plan: Option<Plan>, draw: Option<string>, now: nat, disk: SaveOutcome)
      returns (failed: bool, ghost end: Option<Config>)
      requires draw.Some? ==> draw.value !in manager.journal.files
      modifies manager.journal, manager.backend, manager.trace`events, current`transaction
      ensures end.Some? <==> Beginnable(plan, draw, now, disk)
      ensures end.Some? ==> Led(old(manager.Now()), plan.value, draw.value, now, end.value)
      ensures failed <==> end.None? || end.value.thread.pc.Settled?
      ensures !failed ==>
                && end.value.thread.pc == Established && current.transaction != null && fresh(current.transaction)
                && current.transaction.id == draw.value && current.transaction.Snapshot() == end.value.thread.memory
      ensures failed ==> current.transaction == old(current.transaction)
      ensures end.None? ==> manager.backend.held == old(manager.backend.held)
      ensures end.None? ==>
                manager.journal.files ==
                  if plan.Some? && manager.journal.Savable(plan.value.profile, draw, now) && disk != NotSaved
                  then old(manager.journal.files)[draw.value := manager.journal.BlankRecord(draw.value, plan.value.profile, now)]
                  else old(manager.journal.files)
    {
      hide Ran;
      if plan == None {
        return true, None;
      }
      var transaction;
      ghost var unclean;
      transaction, failed, unclean := manager.Activate(plan.value, draw, now, disk);
      end := if transaction == null then None
             else Some(manager.At(if failed then Settled(unclean) else Established, plan.value.mutations, transaction));
      if failed {
        return;
      }
      current.transaction := transaction;
    }

    /** The last section of monitor. */
    method MarkConnected(current: SessionObject, iface: string)
      modifies current
      ensures current.View() == old(current.View()).(iface := iface, state := Connected, monitor := AwaitExit,
                                                     activated := old(current.activated) + 1)
      ensures current.password == ""
    {
      current.activated := current.activated + 1;
      current.interfaceName := iface;
      current.state := Connected;
      current.password := "";
      current.monitor := AwaitExit;
    }

    /** What the monitor does once the interface is there, when nothing comes in
        between: the session is connected, or has failed. */
    method SetUp(current: SessionObject, iface: string, plan: Option<Plan>, draw: Option<string>, now: nat, disk: SaveOutcome)
      returns (established: bool, ghost end: Option<Config>)
      requires draw.Some? ==> draw.value !in manager.journal.files
      requires current.transaction == null && current.interfaceName == ""
      modifies manager.journal, manager.backend, manager.trace`events, current
      ensures end.Some? <==> Beginnable(plan, draw, now, disk)
      ensures end.Some? ==> Led(old(manager.Now()), plan.value, draw.value, now, end.value)
      ensures established <==> end.Some? && end.value.thread.pc == Established
      ensures established ==>
                && current.View() == old(current.View()).(transaction := draw, iface := iface, state := Connected,
                                                          monitor := AwaitExit, activated := old(current.activated) + 1)
                && current.password == ""
      ensures !established ==> current.View() == old(Let(current)).(input := false, management := false, state := Failure,
                                                                    monitor := AwaitExit)
      ensures end.None? ==>
                && manager.backend.held == old(manager.backend.held)
                && manager.journal.files ==
                     if plan.Some? && manager.journal.Savable(plan.value.profile, draw, now) && disk != NotSaved
                     then old(manager.journal.files)[draw.value := manager.journal.BlankRecord(draw.value, plan.value.profile, now)]
                     else old(manager.journal.files)
    {
      hide WholeSection, Led;
      var failed;
      failed, end := ApplyNetwork(current, plan, draw, now, disk);
      if failed {
        var message: string := *;
        ghost var applied := manager.Now();
        Fail(current, "network setup failed: " + message, true);
        return false, end;
      }
      MarkConnected(current, iface);
      return true, end;
    }

    /** A set-up that failed and was rolled back without a failed call leaves the
        network without anything of the plan, and as it was if nothing of the
        plan was in place; one that was established has all of it. */
    lemma {:induction false} SetUpAllOrNothing(before: Moment, plan: Plan, id: string, now: nat, end: Config)
      requires Sound(before.shared) && id !in before.shared.files && Led(before, plan, id, now, end)
      ensures var w, names := manager.World(), Footprint(before.shared.tracked, plan.mutations);
              && (end.thread.pc == Established ==> w.held.Keys == before.shared.held.Keys + names)
              && (end.thread.pc == Settled(false) && before.shared.held.Keys !! names ==> w == before.shared)
    {
      var record := manager.journal.BlankRecord(id, plan.profile, now);
      var c := Config(before.shared.(files := before.shared.files[id := record]), Thread(NextMutation, plan.mutations, record));
      ActivateAllOrNothing(id, before.shared, record, plan.mutations, c,
                           manager.trace.events[|before.calls + [Resaved(Saved)]|..], end);
    }
  }
}
