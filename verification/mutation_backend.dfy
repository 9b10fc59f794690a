/** The backend of the transaction engine (vpntoris-tray/internal/netbackend/
    mutation.go).  Module EngineBackends proves that it does what the engine
    relies on. */
module MutationBackends {
  import opened Wrappers
  import opened EngineTypes
  import opened Text
  import opened IPv4
  import opened IPText
  import opened Routes
  import opened NetworkPlan
  import opened NetBackend

  datatype DNSCall =
    | Scoped(iface: string, domain: string, servers: seq<string>, failed: bool)
    | Unscoped(iface: string, domain: string, failed: bool)

  /** Split DNS of the system: the domains that are configured.  A failed call
      may have taken effect; `reliable` as for routes. */
  class DNSSystem {
    const reliable: bool
    var scoped: set<string>
    var calls: seq<DNSCall>

    constructor (reliable: bool, scoped: set<string>)
      ensures this.reliable == reliable && this.scoped == scoped && calls == []
    {
      this.reliable, this.scoped, calls := reliable, scoped, [];
    }

    method AddScoped(iface: string, domain: string, servers: seq<string>) returns (failed: bool)
      modifies this
      ensures scoped == old(scoped) || scoped == old(scoped) + {domain}
      ensures !failed ==> domain in scoped
      ensures calls == old(calls) + [Scoped(iface, domain, servers, failed)]
    {
      failed := *;
      calls := calls + [Scoped(iface, domain, servers, failed)];
      if !failed {
        scoped := scoped + {domain};
      } else if * {
        scoped := scoped + {domain};
      }
    }

    method RemoveScoped(iface: string, domain: string) returns (failed: bool)
      modifies this
      ensures scoped == old(scoped) || scoped == old(scoped) - {domain}
      ensures !failed && reliable ==> domain !in scoped
      ensures calls == old(calls) + [Unscoped(iface, domain, failed)]
    {
      failed := *;
      calls := calls + [Unscoped(iface, domain, failed)];
      if !failed && reliable {
        scoped := scoped - {domain};
      } else if * {
        scoped := scoped - {domain};
      }
    }
  }

  /** The commands that the router of the system was given. */
  datatype RouterLog = NoCommands | UnixCommands(unix: seq<Command<UnixKey>>) | WindowsCommands(windows: seq<Command<WindowsKey>>)

  /** What a mutation puts in place. */
  datatype Place = RoutePlace(entry: UnixKey) | DomainPlace(domain: string)

  function PlaceOf(m: Mutation): Option<Place> {
    match m.kind
    case Route =>
      if m.iface == "" || m.cidr == "" then None
      else (match EntryOf(m.iface, m.cidr) case None => None case Some(e) => Some(RoutePlace(e)))
    case Dns => if m.iface == "" || m.domain == "" then None else Some(DomainPlace(m.domain))
    case _ => None
  }

  /** The parts between commas, without surrounding space and without blank ones. */
  function SplitCSV(value: string): seq<string> {
    NonEmpty(TrimAll(Split(value, {','})))
  }

  /** splitCSV */
  method SplitValues(value: string) returns (parts: seq<string>)
    ensures parts == SplitCSV(value)
  {
    var raw := Split(value, {','});
    parts := CollectParts(raw, TrimSpace, TrimAll(raw));
  }

  /** The loop of splitCSV. */
  method CollectParts(raw: seq<string>, trim: string -> string, ghost trimmed: seq<string>) returns (parts: seq<string>)
    requires |trimmed| == |raw| && forall k :: 0 <= k < |raw| ==> trimmed[k] == trim(raw[k])
    ensures parts == NonEmpty(trimmed)
  {
    hide NonEmpty;
    parts := [];
    for k := 0 to |raw|
      invariant NonEmpty(trimmed) == parts + NonEmpty(trimmed[k..])
    {
      var part := trim(raw[k]);
      NonEmptyAt(trimmed, k);
      if part != "" {
        parts := parts + [part];
      }
    }
    assert trimmed[|raw|..] == [];
    NonEmptyNone();
  }

  lemma {:induction false} NonEmptyNone()
    ensures NonEmpty([]) == []
  {
  }

  lemma {:induction false} NonEmptyAt(parts: seq<string>, k: nat)
    requires k < |parts|
    ensures NonEmpty(parts[k..]) == (if parts[k] == "" then [] else [parts[k]]) + NonEmpty(parts[k + 1..])
  {
    assert parts[k..][0] == parts[k] && parts[k..][1..] == parts[k + 1..];
  }

  // ---- One route in the table of a router ----

  datatype Router = NoRouter | Unix(unix: CommandRouter) | Windows(windows: WindowsRouter)

  ghost function TableOf(router: Router): set<object> {
    match router
    case NoRouter => {}
    case Unix(u) => {u.system}
    case Windows(w) => {w.system}
  }

  /** The network is routed through the interface.  On Windows the interface
      needs an index, and the default route is never touched. */
  ghost function CommandsOf(router: Router): RouterLog
    reads TableOf(router)
  {
    match router
    case NoRouter => NoCommands
    case Unix(u) => UnixCommands(u.system.log)
    case Windows(w) => WindowsCommands(w.system.log)
  }

  /** One route was asked for: without a network that can be routed, or without
      a router that is ready, this fails and no command is given; otherwise it
      fails just when the one command is refused. */
  ghost predicate Tried(router: Router, iface: string, cidr: string, before: RouterLog, after: RouterLog, failed: bool) {
    match router
    case NoRouter => failed && after == before
    case Unix(u) =>
      if iface == "" || !u.configured || !Routable(cidr) then failed && after == before
      else before.UnixCommands? && after == UnixCommands(before.unix + [Answer(UnixKeyOf(iface, cidr).value, failed)])
    case Windows(w) =>
      if !w.Ready(iface) || !Routable(cidr) then failed && after == before
      else before.WindowsCommands?
           && after == WindowsCommands(before.windows + [Answer(WindowsKeyOf(w.indexOf(iface).value, cidr).value, failed)])
  }

  lemma {:induction false} NoRouterTried(iface: string, cidr: string, log: RouterLog)
    ensures Tried(NoRouter, iface, cidr, log, log, true)
  {
  }

  function Answer<K>(key: K, failed: bool): Command<K> {
    if failed then Refused(key) else Add(key)
  }

  /** One route was given up: one delete command, if it names an entry and the
      router is ready. */
  ghost predicate GivenUp(router: Router, iface: string, cidr: string, before: RouterLog, after: RouterLog) {
    match router
    case NoRouter => after == before
    case Unix(u) =>
      if !u.configured || EntryOf(iface, cidr).None? then after == before
      else before.UnixCommands? && after == UnixCommands(before.unix + [Remove(EntryOf(iface, cidr).value)])
    case Windows(w) =>
      if !w.Ready(iface) || !Routable(cidr) then after == before
      else before.WindowsCommands?
           && after == WindowsCommands(before.windows + [Remove(WindowsKeyOf(w.indexOf(iface).value, cidr).value)])
  }

  ghost predicate Routed(router: Router, e: UnixKey)
    reads TableOf(router)
  {
    match router
    case NoRouter => false
    case Unix(u) => e in u.system.table
    case Windows(w) => w.Ready(e.iface) && e.prefix.bits > 0 && WindowsEntry(w.indexOf(e.iface).value, e.prefix) in w.system.table
  }

  /** Every interface has an index of its own. */
  ghost predicate OwnIndexes(router: Router) {
    router.Windows? ==>
      forall i, j :: router.windows.indexOf(i).Some? && router.windows.indexOf(i) == router.windows.indexOf(j) ==> i == j
  }

  /** Route deletions only fail when there is nothing to delete. */
  predicate Deletes(router: Router) {
    match router
    case NoRouter => true
    case Unix(u) => u.configured && u.system.reliable
    case Windows(w) => w.system.reliable
  }

  lemma {:induction false} OneKey<K>(route: string, key: string -> Option<K>)
    ensures Keys([route], key) == if key(route).Some? then {key(route).value} else {}
    ensures Keys([route][..0], key) == {} && Adds([route][..0], key) == [] && Removes([route][..0], key) == []
    ensures Adds([route], key) == if key(route).Some? then [Add(key(route).value)] else []
    ensures Removes([route], key) == if key(route).Some? then [Remove(key(route).value)] else []
  {
    KeysOneMore([route], 0, key);
    assert [route][..1] == [route];
  }

  method AddUnix(router: CommandRouter, iface: string, cidr: string) returns (failed: bool)
    modifies router.system
    ensures Tried(Unix(router), iface, cidr, old(CommandsOf(Unix(router))), CommandsOf(Unix(router)), failed)
    ensures failed ==> router.system.table == old(router.system.table)
    ensures !failed ==> EntryOf(iface, cidr).Some? && router.system.table == old(router.system.table) + {EntryOf(iface, cidr).value}
  {
    ghost var n;
    failed, n := router.AddRoutes(iface, [cidr]);
    OneKey(cidr, r => UnixKeyOf(iface, r));
    if !failed {
      assert UnixKeyOf(iface, [cidr][0]).Some?;
    }
  }

  lemma {:induction false} WindowsKeyed(index: int, cidr: string)
    ensures WindowsKeyOf(index, cidr).Some? <==> Routable(cidr)
  {
  }

  method AddWindows(router: WindowsRouter, iface: string, cidr: string) returns (failed: bool)
    modifies router.system
    ensures Tried(Windows(router), iface, cidr, old(CommandsOf(Windows(router))), CommandsOf(Windows(router)), failed)
    ensures failed ==> router.system.table == old(router.system.table)
    ensures !failed ==>
              && router.Ready(iface) && Routable(cidr)
              && router.system.table == old(router.system.table) + {WindowsKeyOf(router.indexOf(iface).value, cidr).value}
  {
    hide WindowsKeyOf, Routable, Keys, Adds, Removes;
    ghost var n;
    failed, n := router.AddRoutes(iface, [cidr]);
    if router.Ready(iface) {
      WindowsKeyed(router.indexOf(iface).value, cidr);
      ghost var key := r => WindowsKeyOf(router.indexOf(iface).value, r);
      OneKey(cidr, key);
      if !failed {
        assert key([cidr][0]).Some?;
      }
    }
  }

  predicate SameEntry(w: WindowsRouter, f: UnixKey, e: UnixKey)
    requires w.Ready(f.iface) && w.Ready(e.iface)
  {
    WindowsEntry(w.indexOf(f.iface).value, f.prefix) == WindowsEntry(w.indexOf(e.iface).value, e.prefix)
  }

  lemma {:induction false} OtherWindowsEntries(router: Router, e: UnixKey)
    requires router.Windows? && OwnIndexes(router) && router.windows.Ready(e.iface)
    ensures var w := router.windows;
            forall f: UnixKey :: w.Ready(f.iface) && SameEntry(w, f, e) ==> f == e
  {
    var w := router.windows;
    forall f: UnixKey | w.Ready(f.iface) && SameEntry(w, f, e)
      ensures f == e
    {
      WindowsEntryUnique(w.indexOf(f.iface).value, f.prefix, w.indexOf(e.iface).value, e.prefix);
    }
  }

  /** AddRoutes of either router for one route. */
  method AddOneRoute(router: Router, iface: string, cidr: string) returns (failed: bool)
    modifies TableOf(router)
    ensures Tried(router, iface, cidr, old(CommandsOf(router)), CommandsOf(router), failed)
    ensures OwnIndexes(router) ==> forall e :: Some(e) != EntryOf(iface, cidr) ==> Routed(router, e) == old(Routed(router, e))
    ensures failed ==> forall e :: Routed(router, e) == old(Routed(router, e))
    ensures !failed ==> EntryOf(iface, cidr).Some? && Routed(router, EntryOf(iface, cidr).value)
  {
    hide WindowsEntry;
    match router
    case NoRouter =>
      return true;
    case Unix(u) =>
      failed := AddUnix(u, iface, cidr);
    case Windows(w) =>
      failed := AddWindows(w, iface, cidr);
      if OwnIndexes(router) && !failed {
        OtherWindowsEntries(router, EntryOf(iface, cidr).value);
      }
  }

  method DeleteUnix(router: CommandRouter, iface: string, cidr: string)
    requires iface != ""
    modifies router.system
    ensures GivenUp(Unix(router), iface, cidr, old(CommandsOf(Unix(router))), CommandsOf(Unix(router)))
    ensures EntryOf(iface, cidr).None? ==> router.system.table == old(router.system.table)
    ensures EntryOf(iface, cidr).Some? ==>
              var e := EntryOf(iface, cidr).value;
              && old(router.system.table) - {e} <= router.system.table <= old(router.system.table)
              && (router.configured && router.system.reliable ==> e !in router.system.table)
  {
    router.DeleteRoutes(iface, [cidr]);
    OneKey(cidr, r => EntryOf(iface, r));
  }

  method DeleteWindows(router: WindowsRouter, iface: string, cidr: string)
    modifies router.system
    ensures GivenUp(Windows(router), iface, cidr, old(CommandsOf(Windows(router))), CommandsOf(Windows(router)))
    ensures !router.Ready(iface) || !Routable(cidr) ==> router.system.table == old(router.system.table)
    ensures router.Ready(iface) && Routable(cidr) ==>
              var k := WindowsKeyOf(router.indexOf(iface).value, cidr).value;
              && old(router.system.table) - {k} <= router.system.table <= old(router.system.table)
              && (router.system.reliable ==> k !in router.system.table)
  {
    router.DeleteRoutes(iface, [cidr]);
    if router.Ready(iface) {
      OneKey(cidr, r => WindowsKeyOf(router.indexOf(iface).value, r));
    }
  }

  /** DeleteRoutes of either router for one route. */
  method DeleteOneRoute(router: Router, iface: string, cidr: string)
    requires iface != ""
    modifies TableOf(router)
    ensures GivenUp(router, iface, cidr, old(CommandsOf(router)), CommandsOf(router))
    ensures OwnIndexes(router) ==> forall e :: Some(e) != EntryOf(iface, cidr) ==> Routed(router, e) == old(Routed(router, e))
    ensures forall e :: Routed(router, e) ==> old(Routed(router, e))
    ensures Deletes(router) && EntryOf(iface, cidr).Some? ==> !Routed(router, EntryOf(iface, cidr).value)
  {
    hide WindowsEntry;
    match router
    case NoRouter =>
    case Unix(u) =>
      DeleteUnix(u, iface, cidr);
    case Windows(w) =>
      DeleteWindows(w, iface, cidr);
      if OwnIndexes(router) && w.Ready(iface) && Routable(cidr) {
        OtherWindowsEntries(router, EntryOf(iface, cidr).value);
      }
  }

  // ---- The backend ----

  class MutationBackend {
    const router: Router
    const dns: DNSSystem?

    constructor (router: Router, dns: DNSSystem?)
      ensures this.router == router && this.dns == dns
    {
      this.router, this.dns := router, dns;
    }

    ghost function Objects(): set<object> {
      TableOf(router) + (if dns != null then {dns as object} else {})
    }

    ghost predicate InPlace(p: Place)
      reads Objects()
    {
      match p
      case RoutePlace(e) => Routed(router, e)
      case DomainPlace(d) => dns != null && d in dns.scoped
    }

    /** Deletions only fail when there is nothing to delete. */
    predicate Reliable() {
      Deletes(router) && (dns != null ==> dns.reliable)
    }

    method Apply(m: Mutation) returns (failed: bool)
      modifies Objects()
      ensures m.kind == Route ==>
                && (dns != null ==> dns.calls == old(dns.calls))
                && if m.iface == "" || m.cidr == "" then failed && CommandsOf(router) == old(CommandsOf(router))
                   else Tried(router, m.iface, m.cidr, old(CommandsOf(router)), CommandsOf(router), failed)
      ensures m.kind == Dns ==>
                && CommandsOf(router) == old(CommandsOf(router))
                && if dns == null || m.iface == "" || m.domain == "" then failed && (dns != null ==> dns.calls == old(dns.calls))
                   else dns.calls == old(dns.calls) + [Scoped(m.iface, m.domain, SplitCSV(m.servers), failed)]
      ensures m.kind != Route && m.kind != Dns ==>
                && CommandsOf(router) == old(CommandsOf(router)) && (dns != null ==> dns.calls == old(dns.calls))
                && (failed <==> m.kind.OtherKind?)
      ensures OwnIndexes(router) ==> forall p :: Some(p) != PlaceOf(m) ==> InPlace(p) == old(InPlace(p))
      ensures PlaceOf(m).Some? && (old(InPlace(PlaceOf(m).value)) || !failed) ==> InPlace(PlaceOf(m).value)
      ensures failed && m.kind == Route ==> forall p :: InPlace(p) == old(InPlace(p))
      ensures !failed ==> m.kind == Interface || m.kind == Process || PlaceOf(m).Some?
      ensures m.kind == Interface || m.kind == Process ==> !failed
    {
      match m.kind
      case Route =>
        failed := ApplyRoute(m);
      case Dns =>
        failed := ApplyDomain(m);
      case Interface =>
        return false;
      case Process =>
        return false;
      case OtherKind(_) =>
        return true;
    }

    method ApplyRoute(m: Mutation) returns (failed: bool)
      requires m.kind == Route
      modifies TableOf(router)
      ensures if m.iface == "" || m.cidr == "" then failed && CommandsOf(router) == old(CommandsOf(router))
              else Tried(router, m.iface, m.cidr, old(CommandsOf(router)), CommandsOf(router), failed)
      ensures OwnIndexes(router) ==> forall p :: Some(p) != PlaceOf(m) ==> InPlace(p) == old(InPlace(p))
      ensures failed ==> forall p :: InPlace(p) == old(InPlace(p))
      ensures !failed ==> PlaceOf(m).Some? && InPlace(PlaceOf(m).value)
    {
      hide Routed, EntryOf, Tried, OwnIndexes;
      NoRouterTried(m.iface, m.cidr, CommandsOf(router));
      if router == NoRouter || m.iface == "" || m.cidr == "" {
        return true;
      }
      failed := AddOneRoute(router, m.iface, m.cidr);
    }

    method ApplyDomain(m: Mutation) returns (failed: bool)
      requires m.kind == Dns
      modifies Objects()
      ensures CommandsOf(router) == old(CommandsOf(router))
      ensures if dns == null || m.iface == "" || m.domain == "" then failed && (dns != null ==> dns.calls == old(dns.calls))
              else dns.calls == old(dns.calls) + [Scoped(m.iface, m.domain, SplitCSV(m.servers), failed)]
      ensures forall p :: Some(p) != PlaceOf(m) ==> InPlace(p) == old(InPlace(p))
      ensures PlaceOf(m).Some? && (old(InPlace(PlaceOf(m).value)) || !failed) ==> InPlace(PlaceOf(m).value)
      ensures !failed ==> PlaceOf(m).Some?
    {
      hide Routed;
      if dns == null || m.iface == "" || m.domain == "" {
        return true;
      }
      var servers := SplitValues(m.servers);
      failed := dns.AddScoped(m.iface, m.domain, servers);
    }

    method Undo(m: Mutation) returns (failed: bool)
      modifies Objects()
      ensures m.kind == Route ==>
                && (failed <==> router == NoRouter) && (dns != null ==> dns.calls == old(dns.calls))
                && if m.iface == "" || m.cidr == "" then CommandsOf(router) == old(CommandsOf(router))
                   else GivenUp(router, m.iface, m.cidr, old(CommandsOf(router)), CommandsOf(router))
      ensures m.kind == Dns ==>
                && CommandsOf(router) == old(CommandsOf(router))
                && if dns == null || m.iface == "" || m.domain == "" then !failed && (dns != null ==> dns.calls == old(dns.calls))
                   else dns.calls == old(dns.calls) + [Unscoped(m.iface, m.domain, failed)]
      ensures m.kind != Route && m.kind != Dns ==>
                !failed && CommandsOf(router) == old(CommandsOf(router)) && (dns != null ==> dns.calls == old(dns.calls))
      ensures OwnIndexes(router) ==> forall p :: Some(p) != PlaceOf(m) ==> InPlace(p) == old(InPlace(p))
      ensures PlaceOf(m).Some? && InPlace(PlaceOf(m).value) ==> old(InPlace(PlaceOf(m).value))
      ensures !failed && Reliable() && PlaceOf(m).Some? ==> !InPlace(PlaceOf(m).value)
      ensures m.kind == Route && router != NoRouter ==> !failed
    {
      match m.kind
      case Route =>
        if router == NoRouter {
          return true;
        }
        if m.iface == "" || m.cidr == "" {
          return false;
        }
        DeleteOneRoute(router, m.iface, m.cidr);
        return false;
      case Dns =>
        if dns == null || m.iface == "" || m.domain == "" {
          return false;
        }
        failed := dns.RemoveScoped(m.iface, m.domain);
      case _ =>
        return false;
    }

    /** Not owned: there is nothing that the mutation could have put in place. */
    method Owned(m: Mutation) returns (owned: bool)
      ensures !owned ==> PlaceOf(m).None?
      ensures owned <==> m.iface != "" && ((m.kind == Route && m.cidr != "") || (m.kind == Dns && m.domain != ""))
    {
      match m.kind
      case Route => return m.iface != "" && m.cidr != "";
      case Dns => return m.iface != "" && m.domain != "";
      case _ => return false;
    }
  }

  // ---- Resource names ----

  predicate PlannedRouteMutation(m: Mutation) {
    && m.kind == Route && m.iface != "" && ParsePrefix(m.cidr).Some? && IsMasked(ParsePrefix(m.cidr).value)
    && m.resource == RouteResource(m.iface, m.cidr)
  }

  predicate PlannedDomainMutation(m: Mutation) {
    m.kind == Dns && m.iface != "" && m.domain != "" && m.resource == DomainResource(m.domain)
  }

  /** Named as BuildNetworkPlan names its mutations. */
  predicate WellNamed(m: Mutation) {
    PlannedRouteMutation(m) || PlannedDomainMutation(m)
  }

  /** One past the last colon, zero without one. */
  function AfterColon(s: string): (n: nat)
    ensures n <= |s|
  {
    if s == "" || s[|s| - 1] == ':' then |s| else AfterColon(s[..|s| - 1])
  }

  lemma {:induction false} AfterColonIs(a: string, x: string)
    requires Free(x, {':'})
    ensures AfterColon(a + ":" + x) == |a| + 1
  {
    var s := a + ":" + x;
    if x != "" {
      assert s[..|s| - 1] == a + ":" + x[..|x| - 1];
      AfterColonIs(a, x[..|x| - 1]);
    }
  }

  lemma {:induction false} LastColon(a: string, x: string, b: string, y: string)
    requires a + ":" + x == b + ":" + y && Free(x, {':'}) && Free(y, {':'})
    ensures a == b && x == y
  {
    var s, t := a + ":" + x, b + ":" + y;
    AfterColonIs(a, x);
    AfterColonIs(b, y);
    assert a == s[..|a|] && b == t[..|b|] && x == s[|a| + 1..] && y == t[|b| + 1..];
  }

  lemma {:induction false} PrefixNoColon(p: Prefix)
    ensures Free(PrintPrefix(p), {':'})
  {
    JoinFree(Octets(p.addr), '.', {':'});
    JoinFree([PrintAddress(p.addr), Decimal(p.bits)], '/', {':'});
  }

  lemma {:induction false} RouteNamesUnique(i: string, p: Prefix, j: string, q: Prefix)
    requires RouteResource(i, PrintPrefix(p)) == RouteResource(j, PrintPrefix(q))
    ensures i == j && p == q
  {
    PrefixNoColon(p);
    PrefixNoColon(q);
    LastColon("route:" + i, PrintPrefix(p), "route:" + j, PrintPrefix(q));
    assert i == ("route:" + i)[6..] && j == ("route:" + j)[6..];
    PrefixTextUnique(p, q);
  }

  lemma {:induction false} PlannedPlace(m: Mutation)
    requires PlannedRouteMutation(m)
    ensures PlaceOf(m) == Some(RoutePlace(UnixKey(m.iface, ParsePrefix(m.cidr).value))) && PrintPrefix(ParsePrefix(m.cidr).value) == m.cidr
  {
    PrintParsePrefix(m.cidr);
    PrintedPlain(ParsePrefix(m.cidr).value);
  }

  /** Well-named mutations have one resource name exactly when they put the same
      thing in place. */
  lemma {:induction false} NamesArePlaces(m: Mutation, n: Mutation)
    requires WellNamed(m) && WellNamed(n)
    ensures PlaceOf(m).Some? && (m.resource == n.resource <==> PlaceOf(m) == PlaceOf(n))
  {
    if m.kind == Route {
      PlannedPlace(m);
    }
    if n.kind == Route {
      PlannedPlace(n);
    }
    if m.kind == Route && n.kind == Route && m.resource == n.resource {
      RouteNamesUnique(m.iface, ParsePrefix(m.cidr).value, n.iface, ParsePrefix(n.cidr).value);
    }
    if m.kind == Dns && n.kind == Dns && m.resource == n.resource {
      assert m.domain == m.resource[4..] && n.domain == n.resource[4..];
    }
    if m.kind != n.kind {
      assert m.resource[0] != n.resource[0];
    }
  }

  /** The names of what is in place, as far as the mutations of `all` go. */
  function NamesOf(all: set<Mutation>, place: Mutation -> Option<Place>, places: set<Place>): set<string> {
    set m | m in all && place(m).Some? && place(m).value in places :: m.resource
  }

  lemma {:induction false} NamesFollow(all: set<Mutation>, place: Mutation -> Option<Place>, places: set<Place>, m: Mutation)
    requires m in all
    requires forall n :: n in all ==> place(n).Some? && (m.resource == n.resource <==> place(m) == place(n))
    ensures NamesOf(all, place, places + {place(m).value}) == NamesOf(all, place, places) + {m.resource}
    ensures NamesOf(all, place, places - {place(m).value}) == NamesOf(all, place, places) - {m.resource}
    ensures m.resource in NamesOf(all, place, places) <==> place(m).value in places
  {
  }

  /** On names, Apply and Undo do what the abstract contract says: they put in
      place, or remove, the resource of the mutation and no other. */
  lemma {:induction false} ContractOnNames(all: set<Mutation>, places: set<Place>, m: Mutation)
    requires m in all && forall n :: n in all ==> WellNamed(n)
    ensures PlaceOf(m).Some?
    ensures NamesOf(all, PlaceOf, places + {PlaceOf(m).value}) == NamesOf(all, PlaceOf, places) + {m.resource}
    ensures NamesOf(all, PlaceOf, places - {PlaceOf(m).value}) == NamesOf(all, PlaceOf, places) - {m.resource}
    ensures m.resource in NamesOf(all, PlaceOf, places) <==> PlaceOf(m).value in places
  {
    forall n | n in all
      ensures PlaceOf(n).Some? && (m.resource == n.resource <==> PlaceOf(m) == PlaceOf(n))
    {
      NamesArePlaces(m, n);
      NamesArePlaces(n, m);
    }
    NamesFollow(all, PlaceOf, places, m);
  }

  predicate PlannedWell(m: Mutation) {
    if m.kind == Process || m.kind == Interface then PlaceOf(m).None? else WellNamed(m)
  }

  lemma {:induction false} MutationAt(n: ProfileNetwork, ps: seq<Prefix>, servers: string, k: nat)
    requires n.processID >= 1 && k < 2 + |ps| + |n.domains|
    ensures PlanOf(n, ps, servers).mutations[k]
              == if k < 2 then FixedMutations(n.iface, n.processID)[k]
                 else if k < 2 + |ps| then RouteMutation(n.iface, ps[k - 2])
                 else DomainMutation(n.iface, Lower(TrimSpace(n.domains[k - 2 - |ps|])), servers)
  {
  }

  lemma {:induction false} PlanDomain(n: ProfileNetwork, d: nat)
    requires Plannable(n) && d < |n.domains|
    ensures n.iface != "" && n.processID >= 1 && DomainName(Lower(TrimSpace(n.domains[d])))
  {
  }

  /** The mutations of a plan are well named, but for the process and the
      interface, which put nothing in place. */
  lemma {:induction false} PlanWellNamed(n: ProfileNetwork, plan: Plan, k: nat)
    requires IsPlan(n, plan) && k < |plan.mutations|
    ensures PlannedWell(plan.mutations[k])
  {
    var servers := Join(TrimAll(n.dnsServers), ',');
    var ps :| Canonical(ps, n.routes) && plan == PlanOf(n, ps, servers);
    PlanOfWellNamed(n, ps, servers, k);
  }

  lemma {:induction false} PlanOfWellNamed(n: ProfileNetwork, ps: seq<Prefix>, servers: string, k: nat)
    requires Plannable(n) && Canonical(ps, n.routes) && k < 2 + |ps| + |n.domains|
    ensures PlannedWell(PlanOf(n, ps, servers).mutations[k])
  {
    hide TrimSpace, Lower, Canonical, PlanOf, PrintPrefix, Masked;
    MutationAt(n, ps, servers, k);
    if 2 <= k < 2 + |ps| {
      RouteWellNamed(n.iface, n.routes, ps, k - 2);
    } else if k >= 2 {
      PlanDomain(n, k - 2 - |ps|);
      DomainWellNamed(n.iface, Lower(TrimSpace(n.domains[k - 2 - |ps|])), servers);
    }
  }

  lemma {:induction false} RouteWellNamed(iface: string, routes: seq<string>, ps: seq<Prefix>, k: nat)
    requires Canonical(ps, routes) && k < |ps| && iface != ""
    ensures PlannedWell(RouteMutation(iface, ps[k]))
  {
    PlannedRoute(routes, ps, k);
    ParsePrintPrefix(ps[k]);
  }

  lemma {:induction false} DomainWellNamed(iface: string, domain: string, servers: string)
    requires DomainName(domain) && iface != ""
    ensures PlannedWell(DomainMutation(iface, domain, servers))
  {
    NotEmpty(domain);
  }

  lemma {:induction false} NotEmpty(domain: string)
    requires DomainName(domain)
    ensures domain != ""
  {
    if domain == "" {
      DotAtEnd(domain);
    }
  }

  /** The servers that a plan joins are those that Apply splits again. */
  lemma {:induction false} ServersReadBack(servers: seq<string>)
    requires servers != [] && forall k :: 0 <= k < |servers| ==> ParseAddress(TrimSpace(servers[k])).Some?
    ensures SplitCSV(Join(TrimAll(servers), ',')) == TrimAll(servers)
  {
    var texts := TrimAll(servers);
    forall k | 0 <= k < |texts|
      ensures texts[k] != "" && Free(texts[k], {','}) && TrimSpace(texts[k]) == texts[k]
    {
      AddressPlain(texts[k]);
    }
    SplitJoin(texts, ',', {','});
    assert TrimAll(texts) == texts;
    NonEmptyAll(texts);
  }

  lemma {:induction false} AddressPlain(text: string)
    requires ParseAddress(text).Some?
    ensures text != "" && Free(text, {','}) && TrimSpace(text) == text
  {
    PrintParseAddress(text);
    var a := ParseAddress(text).value;
    DigitsTrimmed(a);
    JoinFree(Octets(a), '.', {','});
    LastOctet(Octets(a));
    TrimSpaceNone(text);
  }

  lemma {:induction false} LastOctet(parts: seq<string>)
    requires parts != [] && forall k :: 0 <= k < |parts| ==> Numeral(parts[k])
    ensures var s := Join(parts, '.'); s != "" && IsDigit(s[|s| - 1])
  {
    if |parts| > 1 {
      LastOctet(parts[1..]);
    }
  }
}
