/** The routers and the backend that carry out mutations (vpntoris-tray/internal/
    netbackend: command.go, router_windows.go, mutation.go).  The operating
    system is a routing table and a log of the commands it was given; a command
    that reports an error changed nothing. */
module NetBackend {
  import opened Wrappers
  import opened EngineTypes
  import opened Text
  import opened IPv4
  import opened IPText
  import opened Routes
  import opened NetworkPlan

  /** An add command that was carried out, one that reported an error, and a
      delete command. */
  datatype Command<K> = Add(key: K) | Refused(key: K) | Remove(key: K)

  /** `reliable`: a delete command only fails when the route is absent. */
  class RouteSystem<K(==)> {
    const reliable: bool
    var table: set<K>
    var log: seq<Command<K>>

    constructor (reliable: bool, table: set<K>)
      ensures this.reliable == reliable && this.table == table && log == []
    {
      this.reliable, this.table, log := reliable, table, [];
    }

    method RunAdd(key: K) returns (failed: bool)
      modifies this
      ensures table == (if failed then old(table) else old(table) + {key})
      ensures log == old(log) + [if failed then Refused(key) else Add(key)]
    {
      failed := *;
      log := log + [if failed then Refused(key) else Add(key)];
      if !failed {
        table := table + {key};
      }
    }

    method RunRemove(key: K) returns (failed: bool)
      modifies this
      ensures table == (if failed then old(table) else old(table) - {key}) && log == old(log) + [Remove(key)]
      ensures reliable && failed ==> key !in old(table)
    {
      log := log + [Remove(key)];
      failed := *;
      if reliable && key in table {
        failed := false;
      }
      if !failed {
        table := table - {key};
      }
    }
  }

  // ---- What the commands of a list of routes name ----

  function Keys<K>(routes: seq<string>, key: string -> Option<K>): set<K> {
    set k | 0 <= k < |routes| && key(routes[k]).Some? :: key(routes[k]).value
  }

  function Adds<K>(routes: seq<string>, key: string -> Option<K>): seq<Command<K>> {
    if routes == [] then [] else
    var n := |routes| - 1;
    Adds(routes[..n], key) + (if key(routes[n]).Some? then [Add(key(routes[n]).value)] else [])
  }

  /** In reverse order. */
  function Removes<K>(routes: seq<string>, key: string -> Option<K>): seq<Command<K>> {
    if routes == [] then [] else
    var n := |routes| - 1;
    (if key(routes[n]).Some? then [Remove(key(routes[n]).value)] else []) + Removes(routes[..n], key)
  }

  lemma {:induction false} KeysOneMore<K>(routes: seq<string>, n: nat, key: string -> Option<K>)
    requires n < |routes|
    ensures Keys(routes[..n + 1], key) == Keys(routes[..n], key) + (if key(routes[n]).Some? then {key(routes[n]).value} else {})
  {
    var more := routes[..n + 1];
    assert more[n] == routes[n] && forall k :: 0 <= k < n ==> more[k] == routes[..n][k];
  }

  /** Of routes that all name an entry: add commands in the order of the list,
      delete commands in reverse. */
  lemma {:induction false} CommandsWritten<K>(routes: seq<string>, key: string -> Option<K>, k: nat)
    requires AllKeyed(routes, key) && k < |routes|
    ensures |Adds(routes, key)| == |routes| && Adds(routes, key)[k] == Add(key(routes[k]).value)
    ensures |Removes(routes, key)| == |routes| && Removes(routes, key)[|routes| - 1 - k] == Remove(key(routes[k]).value)
    decreases |routes|
  {
    hide Adds, Removes, AllKeyed;
    var n := |routes| - 1;
    LastCommand(routes, key);
    if n > 0 {
      CommandsWritten(routes[..n], key, if k < n then k else 0);
    }
  }

  lemma {:induction false} LastCommand<K>(routes: seq<string>, key: string -> Option<K>)
    requires AllKeyed(routes, key) && routes != []
    ensures var n := |routes| - 1;
            && AllKeyed(routes[..n], key) && key(routes[n]).Some?
            && Adds(routes, key) == Adds(routes[..n], key) + [Add(key(routes[n]).value)]
            && Removes(routes, key) == [Remove(key(routes[n]).value)] + Removes(routes[..n], key)
            && (n == 0 ==> Adds(routes[..n], key) == [] && Removes(routes[..n], key) == [])
  {
    var n := |routes| - 1;
    assert forall i :: 0 <= i < n ==> routes[..n][i] == routes[i];
  }

  /** The deletions of a router, last route first, every failure ignored. */
  method DeleteAll<K(==)>(system: RouteSystem<K>, routes: seq<string>, key: string -> Option<K>)
    modifies system
    ensures system.log == old(system.log) + Removes(routes, key)
    ensures old(system.table) - Keys(routes, key) <= system.table <= old(system.table)
    ensures system.reliable ==> system.table == old(system.table) - Keys(routes, key)
  {
    var index := |routes|;
    assert routes[..index] == routes;
    while index > 0
      invariant 0 <= index <= |routes|
      invariant old(system.log) + Removes(routes, key) == system.log + Removes(routes[..index], key)
      invariant old(system.table) - Keys(routes, key) <= system.table <= old(system.table)
      invariant system.reliable ==> old(system.table) - Keys(routes, key) == system.table - Keys(routes[..index], key)
    {
      index := index - 1;
      KeysOneMore(routes, index, key);
      assert routes[..index + 1][..index] == routes[..index];
      InKeys(routes, index, key);
      if key(routes[index]).Some? {
        var failed := system.RunRemove(key(routes[index]).value);
      }
    }
  }

  lemma {:induction false} InKeys<K>(routes: seq<string>, k: nat, key: string -> Option<K>)
    requires k < |routes|
    ensures key(routes[k]).Some? ==> key(routes[k]).value in Keys(routes, key)
  {
  }

  /** What is left by adding `routes` when the first `n` commands succeed and
      the next route is refused or its command fails. */
  ghost predicate RolledBack<K>(before: set<K>, after: set<K>, routes: seq<string>, n: nat, key: string -> Option<K>) {
    n < |routes| && after == before - Keys(routes[..n], key)
  }

  predicate AllKeyed<K>(routes: seq<string>, key: string -> Option<K>) {
    forall k :: 0 <= k < |routes| ==> key(routes[k]).Some?
  }

  /** What goes wrong with the last route: its command is refused, or it has
      none. */
  function Refusal<K>(route: string, key: string -> Option<K>): seq<Command<K>> {
    if key(route).Some? then [Refused(key(route).value)] else []
  }

  /** Everything AddRoutes may have done. */
  ghost predicate Outcome<K>(before: set<K>, log: seq<Command<K>>, after: set<K>, longer: seq<Command<K>>, reliable: bool,
                                 routes: seq<string>, key: string -> Option<K>, failed: bool, n: nat) {
    if !failed then
      AllKeyed(routes, key) && after == before + Keys(routes, key) && longer == log + Adds(routes, key)
    else
      && n < |routes| && longer == log + Adds(routes[..n], key) + Refusal(routes[n], key) + Removes(routes[..n], key)
      && before - Keys(routes[..n], key) <= after <= before + Keys(routes[..n], key)
      && (reliable ==> RolledBack(before, after, routes, n, key))
  }

  /** The loop of AddRoutes, with the rollback of what was added. */
  lemma {:induction false} NoKeys<K>(key: string -> Option<K>)
    ensures AllKeyed([], key) && Keys([], key) == {} && Adds([], key) == []
  {
  }

  lemma {:induction false} AddsOneMore<K>(routes: seq<string>, n: nat, key: string -> Option<K>)
    requires n < |routes|
    ensures Adds(routes[..n + 1], key)
              == Adds(routes[..n], key) + (if key(routes[n]).Some? then [Add(key(routes[n]).value)] else [])
    ensures AllKeyed(routes[..n + 1], key) <==> AllKeyed(routes[..n], key) && key(routes[n]).Some?
  {
    var more := routes[..n + 1];
    assert more[..n] == routes[..n] && more[n] == routes[n];
    assert forall k :: 0 <= k < n ==> more[k] == routes[..n][k];
  }

  method AddAll<K(==)>(system: RouteSystem<K>, routes: seq<string>, key: string -> Option<K>) returns (failed: bool, ghost n: nat)
    modifies system
    ensures Outcome(old(system.table), old(system.log), system.table, system.log, system.reliable, routes, key, failed, n)
  {
    hide Keys, Adds, AllKeyed;
    n := 0;
    var next := 0;
    NoKeys(key);
    while next < |routes|
      invariant n == next <= |routes| && AllKeyed(routes[..next], key)
      invariant system.table == old(system.table) + Keys(routes[..next], key)
      invariant system.log == old(system.log) + Adds(routes[..next], key)
    {
      AddsOneMore(routes, next, key);
      KeysOneMore(routes, next, key);
      var route := key(routes[next]);
      if route.None? {
        DeleteAll(system, routes[..next], key);
        return true, n;
      }
      var refused := system.RunAdd(route.value);
      if refused {
        DeleteAll(system, routes[..next], key);
        return true, n;
      }
      next := next + 1;
      n := next;
    }
    assert routes[..|routes|] == routes;
    failed := false;
  }

  /** Rolling back restores the table exactly when nothing that had been added
      was there before.  Every other entry is as before in any case. */
  lemma {:induction false} RestoredIff<K>(before: set<K>, after: set<K>, routes: seq<string>, n: nat, key: string -> Option<K>)
    requires RolledBack(before, after, routes, n, key)
    ensures after == before <==> Keys(routes[..n], key) !! before
    ensures forall k :: k !in Keys(routes[..n], key) ==> (k in after <==> k in before)
  {
    if after == before {
      forall k | k in Keys(routes[..n], key)
        ensures k !in before
      {
        assert k !in after;
      }
    }
  }

  /** Adding a list and deleting it again is the identity exactly when none of
      its routes was there before. */
  lemma {:induction false} IdentityIff<K>(before: set<K>, added: set<K>, after: set<K>, routes: seq<string>, key: string -> Option<K>)
    requires added == before + Keys(routes, key) && after == added - Keys(routes, key)
    ensures after == before <==> Keys(routes, key) !! before
  {
    if after == before {
      forall k | k in Keys(routes, key)
        ensures k !in before
      {
        assert k !in after;
      }
    }
  }

  // ---- The router of Linux and macOS ----

  datatype UnixKey = UnixKey(iface: string, prefix: Prefix)

  /** The table entry that a command names. */
  function EntryOf(iface: string, route: string): Option<UnixKey> {
    match ParsePrefix(TrimSpace(route))
    case None => None
    case Some(p) => Some(UnixKey(iface, Masked(p)))
  }

  /** The same, but for the default route, which is refused. */
  function UnixKeyOf(iface: string, route: string): Option<UnixKey> {
    if Routable(route) then EntryOf(iface, route) else None
  }

  /** A list that AddRoutes accepted names the same entries to DeleteRoutes. */
  lemma {:induction false} SameEntries(iface: string, routes: seq<string>)
    requires AllKeyed(routes, r => UnixKeyOf(iface, r))
    ensures Keys(routes, r => UnixKeyOf(iface, r)) == Keys(routes, r => EntryOf(iface, r))
  {
    forall k | 0 <= k < |routes|
      ensures UnixKeyOf(iface, routes[k]) == EntryOf(iface, routes[k])
    {
    }
  }

  class CommandRouter {
    const configured: bool
    const system: RouteSystem<UnixKey>

    constructor (configured: bool, system: RouteSystem<UnixKey>)
      ensures this.configured == configured && this.system == system
    {
      this.configured, this.system := configured, system;
    }

    method AddRoutes(iface: string, routes: seq<string>) returns (failed: bool, ghost n: nat)
      modifies system
      ensures iface == "" || !configured ==> failed && system.table == old(system.table) && system.log == old(system.log)
      ensures iface != "" && configured ==>
                Outcome(old(system.table), old(system.log), system.table, system.log, system.reliable,
                        routes, r => UnixKeyOf(iface, r), failed, n)
      ensures iface != "" && configured && failed && system.reliable ==>
                var added := Keys(routes[..n], r => UnixKeyOf(iface, r));
                && (system.table == old(system.table) <==> added !! old(system.table))
                && forall k :: k !in added ==> (k in system.table <==> k in old(system.table))
    {
      n := 0;
      if iface == "" {
        return true, 0;
      }
      if !configured {
        return true, 0;
      }
      failed, n := AddAll(system, routes, r => UnixKeyOf(iface, r));
      if failed && system.reliable {
        RestoredIff(old(system.table), system.table, routes, n, r => UnixKeyOf(iface, r));
      }
    }

    /** A list added and then deleted again.  Where no command fails to delete
        what is there, the table is as before exactly when none of the routes
        was there before. */
    method AddThenDelete(iface: string, routes: seq<string>) returns (failed: bool, ghost n: nat)
      requires iface != "" && configured
      modifies system
      ensures !failed ==>
                && system.log == old(system.log) + Adds(routes, r => UnixKeyOf(iface, r)) + Removes(routes, r => EntryOf(iface, r))
                && (system.reliable ==>
                      (system.table == old(system.table) <==> Keys(routes, r => UnixKeyOf(iface, r)) !! old(system.table)))
      ensures failed && system.reliable ==>
                n < |routes|
                && (system.table == old(system.table) <==> Keys(routes[..n], r => UnixKeyOf(iface, r)) !! old(system.table))
    {
      failed, n := AddRoutes(iface, routes);
      if failed {
        return;
      }
      SameEntries(iface, routes);
      ghost var added := system.table;
      DeleteRoutes(iface, routes);
      if system.reliable {
        IdentityIff(old(system.table), added, system.table, routes, r => UnixKeyOf(iface, r));
      }
    }

    method DeleteRoutes(iface: string, routes: seq<string>)
      modifies system
      ensures iface == "" || !configured ==> system.table == old(system.table) && system.log == old(system.log)
      ensures iface != "" && configured ==>
                && system.log == old(system.log) + Removes(routes, r => EntryOf(iface, r))
                && old(system.table) - Keys(routes, r => EntryOf(iface, r)) <= system.table <= old(system.table)
                && (system.reliable ==> system.table == old(system.table) - Keys(routes, r => EntryOf(iface, r)))
    {
      if iface == "" || !configured {
        return;
      }
      DeleteAll(system, routes, r => EntryOf(iface, r));
    }
  }

  // ---- The router of Windows ----

  /** Interface index, network and mask, as they stand in the command. */
  datatype WindowsKey = WindowsKey(index: int, network: string, mask: string)

  function WindowsEntry(index: int, p: Prefix): WindowsKey {
    WindowsKey(index, PrintAddress(p.addr), PrintAddress(Mask(p.bits)))
  }

  /** What NetworkAndMask makes of a route. */
  function WindowsKeyOf(index: int, route: string): Option<WindowsKey> {
    if Routable(route) then Some(WindowsEntry(index, Masked(ParsePrefix(TrimSpace(route)).value))) else None
  }

  method CommandKey(index: int, route: string) returns (key: Option<WindowsKey>)
    ensures key == WindowsKeyOf(index, route)
  {
    var pair := NetworkAndMask(route);
    if pair.Err? {
      return None;
    }
    PrintParseAddress(pair.value.0);
    PrintParseAddress(pair.value.1);
    return Some(WindowsKey(index, pair.value.0, pair.value.1));
  }

  lemma {:induction false} Pow2Strict(m: nat, n: nat)
    requires m < n
    ensures Pow2(m) < Pow2(n)
  {
    if m + 1 < n {
      Pow2Strict(m, n - 1);
    }
  }

  lemma {:induction false} MaskUnique(a: Bits, b: Bits)
    requires Mask(a) == Mask(b)
    ensures a == b
  {
    MaskIs(a);
    MaskIs(b);
    if a < b {
      Pow2Strict(32 - b, 32 - a);
    } else if b < a {
      Pow2Strict(32 - a, 32 - b);
    }
  }

  /** Two routes have one key exactly when they denote one network on one
      interface, so a delete command names what the add command named. */
  lemma {:induction false} WindowsKeyUnique(i: int, r: string, j: int, s: string)
    requires Routable(r) && Routable(s)
    ensures WindowsKeyOf(i, r) == WindowsKeyOf(j, s)
            <==> i == j && Masked(ParsePrefix(TrimSpace(r)).value) == Masked(ParsePrefix(TrimSpace(s)).value)
  {
    WindowsEntryUnique(i, Masked(ParsePrefix(TrimSpace(r)).value), j, Masked(ParsePrefix(TrimSpace(s)).value));
  }

  lemma {:induction false} WindowsEntryUnique(i: int, p: Prefix, j: int, q: Prefix)
    ensures WindowsEntry(i, p) == WindowsEntry(j, q) <==> i == j && p == q
  {
    ParsePrintAddress(p.addr);
    ParsePrintAddress(q.addr);
    ParsePrintAddress(Mask(p.bits));
    ParsePrintAddress(Mask(q.bits));
    if Mask(p.bits) == Mask(q.bits) {
      MaskUnique(p.bits, q.bits);
    }
  }

  class WindowsRouter {
    const configured: bool
    const indexOf: string -> Option<int>
    const system: RouteSystem<WindowsKey>

    constructor (configured: bool, indexOf: string -> Option<int>, system: RouteSystem<WindowsKey>)
      ensures this.configured == configured && this.indexOf == indexOf && this.system == system
    {
      this.configured, this.indexOf, this.system := configured, indexOf, system;
    }

    predicate Ready(iface: string) {
      iface != "" && configured && indexOf(iface).Some?
    }

    method AddRoutes(iface: string, routes: seq<string>) returns (failed: bool, ghost n: nat)
      modifies system
      ensures !Ready(iface) ==> failed && system.table == old(system.table) && system.log == old(system.log)
      ensures Ready(iface) ==>
                Outcome(old(system.table), old(system.log), system.table, system.log, system.reliable,
                        routes, r => WindowsKeyOf(indexOf(iface).value, r), failed, n)
      ensures Ready(iface) && failed && system.reliable ==>
                var added := Keys(routes[..n], r => WindowsKeyOf(indexOf(iface).value, r));
                && (system.table == old(system.table) <==> added !! old(system.table))
                && forall k :: k !in added ==> (k in system.table <==> k in old(system.table))
    {
      n := 0;
      if iface == "" || !configured {
        return true, 0;
      }
      var index := indexOf(iface);
      if index.None? {
        return true, 0;
      }
      failed, n := AddAll(system, routes, r => WindowsKeyOf(index.value, r));
      if failed && system.reliable {
        RestoredIff(old(system.table), system.table, routes, n, r => WindowsKeyOf(index.value, r));
      }
    }

    method AddThenDelete(iface: string, routes: seq<string>) returns (failed: bool, ghost n: nat)
      requires Ready(iface)
      modifies system
      ensures var key := r => WindowsKeyOf(indexOf(iface).value, r);
              && (!failed ==>
                    && system.log == old(system.log) + Adds(routes, key) + Removes(routes, key)
                    && (system.reliable ==> (system.table == old(system.table) <==> Keys(routes, key) !! old(system.table))))
              && (failed && system.reliable ==>
                    n < |routes| && (system.table == old(system.table) <==> Keys(routes[..n], key) !! old(system.table)))
    {
      failed, n := AddRoutes(iface, routes);
      if failed {
        return;
      }
      ghost var added := system.table;
      DeleteRoutes(iface, routes);
      if system.reliable {
        IdentityIff(old(system.table), added, system.table, routes, r => WindowsKeyOf(indexOf(iface).value, r));
      }
    }

    method DeleteRoutes(iface: string, routes: seq<string>)
      modifies system
      ensures !Ready(iface) ==> system.table == old(system.table) && system.log == old(system.log)
      ensures Ready(iface) ==>
                var key := r => WindowsKeyOf(indexOf(iface).value, r);
                && system.log == old(system.log) + Removes(routes, key)
                && old(system.table) - Keys(routes, key) <= system.table <= old(system.table)
                && (system.reliable ==> system.table == old(system.table) - Keys(routes, key))
    {
      if iface == "" || !configured {
        return;
      }
      var index := indexOf(iface);
      if index.None? {
        return;
      }
      DeleteAll(system, routes, r => WindowsKeyOf(index.value, r));
    }
  }

  // ---- A route that was there before ----

  const TEN: Prefix := Prefix(0x0A00_0000, 8)

  lemma {:induction false} TenMasked()
    ensures IsMasked(TEN)
  {
    MaskClears(0x0A00_0000, 8);
    UpTimes(10, 24);
    TwentyFour();
    DownInterval(0x0A00_0000, 10, 24);
  }

  lemma {:induction false} TwentyFour()
    ensures Pow2(24) == 0x100_0000
  {
    assert Pow2(8) == 256;
    assert Pow2(16) == 0x1_0000;
  }

  lemma {:induction false} TenNumerals()
    ensures Decimal(10) == "10" && Decimal(0) == "0" && Decimal(8) == "8"
  {
  }

  lemma {:induction false} TenOctets(a: Address)
    requires a == 0x0A00_0000
    ensures Octet(a, 0) == 10 && Octet(a, 1) == 0 && Octet(a, 2) == 0 && Octet(a, 3) == 0
  {
    OctetsAre(a);
  }

  lemma {:induction false} TenPrints()
    ensures PrintPrefix(TEN) == "10.0.0.0/8"
  {
    TenNumerals();
    TenOctets(TEN.addr);
    DottedIsAddress(TEN.addr);
    JoinTwo(PrintAddress(TEN.addr), Decimal(8), '/');
    TenText("10", "0", "8");
  }

  lemma {:induction false} TenText(ten: string, zero: string, eight: string)
    requires ten == "10" && zero == "0" && eight == "8"
    ensures ten + "." + zero + "." + zero + "." + zero + ['/'] + eight == "10.0.0.0/8"
  {
  }

  lemma {:induction false} TenKey(route: string)
    requires route == "10.0.0.0/8"
    ensures UnixKeyOf("tun0", route) == EntryOf("tun0", route) == Some(UnixKey("tun0", TEN))
  {
    TenPrints();
    TenMasked();
    ParsePrintPrefix(TEN);
    PrintedPlain(TEN);
  }

  /** A concrete list that is not undone: the route 10.0.0.0/8 is there before.
      Added again and deleted, or added again and rolled back because the next
      text is no route, it is gone. */
  lemma {:induction false} PresentRouteLost(route: string, before: set<UnixKey>)
    requires route == "10.0.0.0/8" && before == {UnixKey("tun0", TEN)}
    ensures var key: string -> Option<UnixKey> := r => UnixKeyOf("tun0", r);
            && Outcome(before, [], before, [Add(UnixKey("tun0", TEN))], true, [route], key, false, 1)
            && before - Keys([route], r => EntryOf("tun0", r)) == {}
            && Outcome(before, [], {}, [Add(UnixKey("tun0", TEN)), Remove(UnixKey("tun0", TEN))], true, [route, ""], key, true, 1)
  {
    TenKey(route);
    NoRoute();
    LostByDeletion(UnixKey("tun0", TEN), route, r => UnixKeyOf("tun0", r));
    LostByRollback(UnixKey("tun0", TEN), route, "", r => UnixKeyOf("tun0", r));
    LostByDeletion(UnixKey("tun0", TEN), route, r => EntryOf("tun0", r));
  }

  lemma {:induction false} NoRoute()
    ensures UnixKeyOf("tun0", "") == None
  {
    var none: string := "";
    assert Split(TrimSpace(none), {'/'}) == [none];
  }

  lemma {:induction false} LostByDeletion<K>(k: K, route: string, key: string -> Option<K>)
    requires key(route) == Some(k)
    ensures Keys([route], key) == {k} && Adds([route], key) == [Add(k)]
    ensures Outcome({k}, [], {k}, [Add(k)], true, [route], key, false, 1)
  {
    assert [route][..0] == [] && [route][..1] == [route];
    KeysOneMore([route], 0, key);
    assert Keys([route][..0], key) == {};
  }

  lemma {:induction false} LostByRollback<K>(k: K, route: string, bad: string, key: string -> Option<K>)
    requires key(route) == Some(k) && key(bad) == None
    ensures Outcome({k}, [], {}, [Add(k), Remove(k)], true, [route, bad], key, true, 1)
  {
    LostByDeletion(k, route, key);
    var both := [route, bad];
    assert both[..1] == [route] && both[..2] == both && both[..2][..1] == [route] && [route][..0] == [];
    assert Removes([route], key) == [Remove(k)] + Removes([route][..0], key);
  }
}
