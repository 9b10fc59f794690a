/** From the network settings of a profile to the mutations that establish them
    (vpntoris-tray/internal/nativeengine/plan.go).  A planned mutation has no
    state yet; `Pending` stands for that. */
module NetworkPlan {
  import opened Wrappers
  import opened EngineTypes
  import opened Text
  import opened IPv4
  import opened IPText
  import opened Routes
  import opened Sorting

  datatype ProfileNetwork = ProfileNetwork(
    profile: string,
    iface: string,
    processID: int,
    routes: seq<string>,
    domains: seq<string>,
    dnsServers: seq<string>)

  datatype PlanError = Incomplete | BadRouteText(text: string) | DefaultRouteAsked | NoRoute | BadServer(text: string) | BadDNS

  // ---- What is planned ----

  /** The network that a route denotes. */
  function Denoted(route: string): Result<Prefix, PlanError> {
    match ParsePrefix(TrimSpace(route))
    case None => Err(BadRouteText(route))
    case Some(p) => if p.bits == 0 then Err(DefaultRouteAsked) else Ok(Masked(p))
  }

  predicate Before(p: Prefix, q: Prefix) {
    p.bits > q.bits || (p.bits == q.bits && p.addr < q.addr)
  }

  predicate Ascending(ps: seq<Prefix>) {
    forall i, j :: 0 <= i < j < |ps| ==> Before(ps[i], ps[j])
  }

  ghost predicate Denotes(routes: seq<string>, p: Prefix) {
    exists k :: 0 <= k < |routes| && Denoted(routes[k]) == Ok(p)
  }

  /** The denoted networks, each once, longer prefixes first, then by address. */
  ghost predicate Canonical(ps: seq<Prefix>, routes: seq<string>) {
    Ascending(ps) && forall p :: p in ps <==> Denotes(routes, p)
  }

  function RouteMutation(iface: string, p: Prefix): Mutation {
    Mutation("", Route, Pending, RouteResource(iface, PrintPrefix(p)), iface, PrintPrefix(p), "", 0, "", "")
  }

  function RouteMutations(iface: string, ps: seq<Prefix>): (ms: seq<Mutation>)
    ensures |ms| == |ps|
  {
    seq(|ps|, k requires 0 <= k < |ps| => RouteMutation(iface, ps[k]))
  }

  function DomainMutation(iface: string, domain: string, servers: string): Mutation {
    Mutation("", Dns, Pending, DomainResource(domain), iface, "", domain, 0, servers, "")
  }

  function DomainMutations(iface: string, domains: seq<string>, servers: string): (ms: seq<Mutation>)
    ensures |ms| == |domains|
  {
    seq(|domains|, k requires 0 <= k < |domains| => DomainMutation(iface, Lower(TrimSpace(domains[k])), servers))
  }

  function FixedMutations(iface: string, processID: nat): seq<Mutation> {
    [Mutation("", Process, Pending, "process:" + Decimal(processID), "", "", "", processID, "", ""),
     Mutation("", Interface, Pending, "interface:" + iface, iface, "", "", 0, "", "")]
  }

  function PlanOf(n: ProfileNetwork, ps: seq<Prefix>, servers: string): Plan
    requires n.processID >= 1
  {
    Plan(n.profile, FixedMutations(n.iface, n.processID) + RouteMutations(n.iface, ps) + DomainMutations(n.iface, n.domains, servers))
  }

  predicate LabelOk(part: string) {
    && part != "" && Bytes(part) <= 63 && part[0] != '-' && part[|part| - 1] != '-'
    && forall i :: 0 <= i < |part| ==> part[i] == '-' || 'a' <= part[i] <= 'z' || '0' <= part[i] <= '9'
  }

  predicate DomainName(domain: string) {
    Bytes(domain) <= 253 && forall k :: 0 <= k < |Split(domain, {'.'})| ==> LabelOk(Split(domain, {'.'})[k])
  }

  predicate RoutesPlannable(routes: seq<string>) {
    routes != [] && forall k :: 0 <= k < |routes| ==> Denoted(routes[k]).Ok?
  }

  predicate DNSPlannable(domains: seq<string>, servers: seq<string>) {
    && (forall k :: 0 <= k < |servers| ==> ParseAddress(TrimSpace(servers[k])).Some?)
    && (forall k :: 0 <= k < |domains| ==> DomainName(Lower(TrimSpace(domains[k]))))
    && (domains != [] ==> servers != [])
  }

  predicate Complete(n: ProfileNetwork) {
    n.profile != "" && n.iface != "" && n.processID >= 1
  }

  predicate Plannable(n: ProfileNetwork) {
    Complete(n) && RoutesPlannable(n.routes) && DNSPlannable(n.domains, n.dnsServers)
  }

  ghost predicate IsPlan(n: ProfileNetwork, plan: Plan) {
    && Plannable(n)
    && exists ps :: Canonical(ps, n.routes) && plan == PlanOf(n, ps, Join(TrimAll(n.dnsServers), ','))
  }

  /** The first thing in the order of the checks that is wrong. */
  ghost predicate Because(n: ProfileNetwork, problem: PlanError) {
    match problem
    case Incomplete => n.profile == "" || n.iface == "" || n.processID < 1
    case BadRouteText(text) => Complete(n) && FirstBad(n.routes, problem)
    case DefaultRouteAsked => Complete(n) && FirstBad(n.routes, problem)
    case NoRoute => Complete(n) && n.routes == []
    case BadServer(text) =>
      Complete(n) && RoutesPlannable(n.routes) && text in n.dnsServers && ParseAddress(TrimSpace(text)).None?
    case BadDNS =>
      Complete(n) && RoutesPlannable(n.routes) && DNSPlannable([], n.dnsServers) && !DNSPlannable(n.domains, n.dnsServers)
  }

  ghost predicate FirstBad(routes: seq<string>, problem: PlanError) {
    exists k :: 0 <= k < |routes| && Denoted(routes[k]) == Err(problem) && forall j :: 0 <= j < k ==> Denoted(routes[j]).Ok?
  }

  // ---- The program ----

  method BuildNetworkPlan(n: ProfileNetwork) returns (r: Result<Plan, PlanError>)
    ensures r.Ok? <==> Plannable(n)
    ensures r.Ok? ==> IsPlan(n, r.value)
    ensures r.Err? ==> Because(n, r.problem)
  {
    if n.profile == "" || n.iface == "" || n.processID < 1 {
      return Err(Incomplete);
    }
    var prefixes := CollectPrefixes(n.routes, Denoted);
    if prefixes.Err? {
      return Err(prefixes.problem);
    }
    if |prefixes.value| == 0 {
      return Err(NoRoute);
    }
    var sorted := SortPrefixes(prefixes.value);
    CollectedCanonical(n.routes, prefixes.value, sorted);
    var dnsServers := CollectServers(n.dnsServers);
    if dnsServers.Err? {
      return Err(dnsServers.problem);
    }
    var dns := PlanDomains(n.iface, n.domains, dnsServers.value);
    if dns.Err? {
      return Err(dns.problem);
    }
    r := Ok(Plan(n.profile, FixedMutations(n.iface, n.processID) + RouteMutations(n.iface, sorted) + dns.value));
    assert r.value == PlanOf(n, sorted, Join(TrimAll(n.dnsServers), ','));
  }

  predicate Holds(ps: seq<Prefix>, p: Result<Prefix, PlanError>) {
    p.Ok? && p.value in ps
  }

  predicate NoRepeats(ps: seq<Prefix>) {
    forall i, j :: 0 <= i < j < |ps| ==> ps[i] != ps[j]
  }

  /** The first loop: the networks in order of first occurrence.  The program
      recognizes a repetition by its text. */
  method CollectPrefixes(routes: seq<string>, denoted: string -> Result<Prefix, PlanError>) returns (r: Result<seq<Prefix>, PlanError>)
    ensures r.Ok? <==> forall k :: 0 <= k < |routes| ==> denoted(routes[k]).Ok?
    ensures r.Ok? ==> NoRepeats(r.value) && (r.value == [] <==> routes == [])
    ensures r.Ok? ==> forall k :: 0 <= k < |routes| ==> Holds(r.value, denoted(routes[k]))
    ensures r.Ok? ==> forall p :: p in r.value ==> exists k :: 0 <= k < |routes| && denoted(routes[k]) == Ok(p)
    ensures r.Err? ==> exists k :: 0 <= k < |routes| && denoted(routes[k]) == Err(r.problem)
                                   && forall j :: 0 <= j < k ==> denoted(routes[j]).Ok?
  {
    hide PrintPrefix;
    var prefixes: seq<Prefix> := [];
    var seenPrefixes: set<string> := {};
    for next := 0 to |routes|
      invariant NoRepeats(prefixes) && (prefixes == [] <==> next == 0)
      invariant forall p :: p in prefixes <==> PrintPrefix(p) in seenPrefixes
      invariant forall k :: 0 <= k < next ==> Holds(prefixes, denoted(routes[k]))
      invariant forall p :: p in prefixes ==> exists k :: 0 <= k < next && denoted(routes[k]) == Ok(p)
    {
      var prefix := denoted(routes[next]);
      if prefix.Err? {
        return Err(prefix.problem);
      }
      if PrintPrefix(prefix.value) !in seenPrefixes {
        forall p | PrintPrefix(p) == PrintPrefix(prefix.value)
          ensures p == prefix.value
        {
          PrefixTextUnique(p, prefix.value);
        }
        seenPrefixes := seenPrefixes + {PrintPrefix(prefix.value)};
        prefixes := prefixes + [prefix.value];
      }
    }
    return Ok(prefixes);
  }

  method SortPrefixes(ps: seq<Prefix>) returns (sorted: seq<Prefix>)
    requires NoRepeats(ps)
    ensures Ascending(sorted) && forall p :: p in sorted <==> p in ps
  {
    sorted := SortSlice(ps, Before);
    SortedAscending(ps, sorted);
  }

  lemma {:induction false} CountAtMostOnce(ps: seq<Prefix>, p: Prefix)
    requires NoRepeats(ps)
    ensures multiset(ps)[p] <= 1
  {
    if ps != [] {
      var n := |ps| - 1;
      assert ps == ps[..n] + [ps[n]];
      CountAtMostOnce(ps[..n], p);
      assert p in multiset(ps[..n]) ==> p in ps[..n];
    }
  }

  lemma {:induction false} SortedAscending(ps: seq<Prefix>, sorted: seq<Prefix>)
    requires NoRepeats(ps) && multiset(sorted) == multiset(ps) && Sorted(sorted, Before)
    ensures Ascending(sorted) && forall p :: p in sorted <==> p in ps
  {
    forall p
      ensures p in sorted <==> p in ps
    {
      assert p in multiset(sorted) <==> p in multiset(ps);
    }
    forall i, j | 0 <= i < j < |sorted|
      ensures Before(sorted[i], sorted[j])
    {
      CountAtMostOnce(ps, sorted[i]);
      assert sorted == sorted[..j] + [sorted[j]] + sorted[j + 1..];
      assert sorted[i] in multiset(sorted[..j]) by {
        assert sorted[..j][i] == sorted[i];
      }
    }
  }

  lemma {:induction false} CollectedCanonical(routes: seq<string>, ps: seq<Prefix>, sorted: seq<Prefix>)
    requires Ascending(sorted) && forall p :: p in sorted <==> p in ps
    requires forall k :: 0 <= k < |routes| ==> Holds(ps, Denoted(routes[k]))
    requires forall p :: p in ps ==> exists k :: 0 <= k < |routes| && Denoted(routes[k]) == Ok(p)
    ensures Canonical(sorted, routes)
  {
    forall p
      ensures p in sorted <==> Denotes(routes, p)
    {
      if Denotes(routes, p) {
        var k :| 0 <= k < |routes| && Denoted(routes[k]) == Ok(p);
        assert Holds(ps, Denoted(routes[k]));
      }
    }
  }

  method CollectServers(servers: seq<string>) returns (r: Result<seq<string>, PlanError>)
    ensures r.Ok? <==> forall k :: 0 <= k < |servers| ==> ParseAddress(TrimSpace(servers[k])).Some?
    ensures r.Ok? ==> r.value == TrimAll(servers)
    ensures r.Err? ==> r.problem.BadServer? && r.problem.text in servers && ParseAddress(TrimSpace(r.problem.text)).None?
  {
    hide ParseAddress, PrintAddress, TrimSpace;
    var dnsServers: seq<string> := [];
    for k := 0 to |servers|
      invariant forall i :: 0 <= i < k ==> ParseAddress(TrimSpace(servers[i])).Some?
      invariant dnsServers == TrimAll(servers)[..k]
    {
      var address := ParseAddress(TrimSpace(servers[k]));
      if address.None? {
        return Err(BadServer(servers[k]));
      }
      PrintParseAddress(TrimSpace(servers[k]));
      dnsServers := dnsServers + [PrintAddress(address.value)];
    }
    assert TrimAll(servers)[..|servers|] == TrimAll(servers);
    return Ok(dnsServers);
  }

  method PlanDomains(iface: string, domains: seq<string>, servers: seq<string>) returns (r: Result<seq<Mutation>, PlanError>)
    ensures r.Ok? <==> (forall k :: 0 <= k < |domains| ==> DomainName(Lower(TrimSpace(domains[k])))) && (domains != [] ==> servers != [])
    ensures r.Ok? ==> r.value == DomainMutations(iface, domains, Join(servers, ','))
    ensures r.Err? ==> r.problem == BadDNS
  {
    var mutations: seq<Mutation> := [];
    for k := 0 to |domains|
      invariant forall i :: 0 <= i < k ==> DomainName(Lower(TrimSpace(domains[i])))
      invariant k > 0 ==> servers != []
      invariant mutations == DomainMutations(iface, domains, Join(servers, ','))[..k]
    {
      var domain := Lower(TrimSpace(domains[k]));
      var valid := ValidDomainName(domain);
      if !valid || |servers| == 0 {
        return Err(BadDNS);
      }
      mutations := mutations + [DomainMutation(iface, domain, Join(servers, ','))];
    }
    assert DomainMutations(iface, domains, Join(servers, ','))[..|domains|] == DomainMutations(iface, domains, Join(servers, ','));
    return Ok(mutations);
  }

  /** The tests for a dot at either end are implied by the parts. */
  lemma {:induction false} DotAtEnd(domain: string)
    requires domain == "" || domain[0] == '.' || domain[|domain| - 1] == '.'
    ensures !DomainName(domain)
  {
    var parts := Split(domain, {'.'});
    if domain != "" && domain[0] != '.' {
      LastPiece(domain);
      assert !LabelOk(parts[|parts| - 1]);
    } else {
      assert !LabelOk(parts[0]);
    }
  }

  lemma {:induction false} LastPiece(s: string)
    requires s != "" && s[|s| - 1] == '.'
    ensures var pieces := Split(s, {'.'}); pieces[|pieces| - 1] == ""
    decreases |s|
  {
    IndexFinds(s, {'.'}, |s| - 1);
    var n := Index(s, {'.'});
    if n + 1 < |s| {
      LastPiece(s[n + 1..]);
    }
  }

  method ValidDomainName(domain: string) returns (ok: bool)
    ensures ok <==> DomainName(domain)
  {
    if domain == "" || Bytes(domain) > 253 || domain[0] == '.' || domain[|domain| - 1] == '.' {
      if Bytes(domain) <= 253 {
        DotAtEnd(domain);
      }
      return false;
    }
    var parts := Split(domain, {'.'});
    for k := 0 to |parts|
      invariant forall i :: 0 <= i < k ==> LabelOk(parts[i])
    {
      var part := parts[k];
      if part == "" || Bytes(part) > 63 || part[0] == '-' || part[|part| - 1] == '-' {
        return false;
      }
      for c := 0 to |part|
        invariant forall i :: 0 <= i < c ==> part[i] == '-' || 'a' <= part[i] <= 'z' || '0' <= part[i] <= '9'
      {
        if !(part[c] == '-' || 'a' <= part[c] <= 'z' || '0' <= part[c] <= '9') {
          return false;
        }
      }
    }
    return true;
  }

  // ---- The canonical form ----

  lemma {:induction false} AscendingUnique(ps: seq<Prefix>, qs: seq<Prefix>)
    requires Ascending(ps) && Ascending(qs) && forall p :: p in ps <==> p in qs
    ensures ps == qs
  {
    if ps == [] {
      EmptyOrNot(qs);
    } else {
      assert ps[0] in qs;
      assert qs[0] in ps;
      assert ps[0] == qs[0];
      TailSet(ps, qs);
      AscendingUnique(ps[1..], qs[1..]);
    }
  }

  lemma {:induction false} EmptyOrNot(qs: seq<Prefix>)
    ensures qs == [] || exists p :: p in qs
  {
    if qs != [] {
      assert qs[0] in qs;
    }
  }

  lemma {:induction false} TailSet(ps: seq<Prefix>, qs: seq<Prefix>)
    requires Ascending(ps) && Ascending(qs) && ps != [] && qs != [] && ps[0] == qs[0] && forall p :: p in ps <==> p in qs
    ensures forall p :: p in ps[1..] <==> p in qs[1..]
  {
    forall p
      ensures (p in ps[1..] <==> p in ps && p != ps[0]) && (p in qs[1..] <==> p in qs && p != qs[0])
    {
    }
  }

  /** The plan depends on nothing but the set of networks that the routes
      denote: not on their order, on repetitions or on host bits. */
  lemma {:induction false} PlanCanonicalForm(n: ProfileNetwork, routes: seq<string>, plan: Plan, other: Plan)
    requires IsPlan(n, plan) && IsPlan(n.(routes := routes), other)
    requires forall p :: Denotes(n.routes, p) <==> Denotes(routes, p)
    ensures plan == other
  {
    var servers := Join(TrimAll(n.dnsServers), ',');
    var ps :| Canonical(ps, n.routes) && plan == PlanOf(n, ps, servers);
    var qs :| Canonical(qs, routes) && other == PlanOf(n.(routes := routes), qs, servers);
    AscendingUnique(ps, qs);
  }

  /** The planned routes cover exactly the addresses of the routes asked for. */
  lemma {:induction false} PlanCoversExactly(routes: seq<string>, ps: seq<Prefix>, ip: Address)
    requires RoutesPlannable(routes) && Canonical(ps, routes)
    ensures (exists p :: p in ps && Contains(p, ip))
            <==> exists k :: 0 <= k < |routes| && Contains(ParsePrefix(TrimSpace(routes[k])).value, ip)
  {
    hide ParsePrefix, TrimSpace, Masked, Contains;
    if exists p :: p in ps && Contains(p, ip) {
      var p :| p in ps && Contains(p, ip);
      var k :| 0 <= k < |routes| && Denoted(routes[k]) == Ok(p);
      MaskedContains(ParsePrefix(TrimSpace(routes[k])).value, ip);
    }
    if exists k :: 0 <= k < |routes| && Contains(ParsePrefix(TrimSpace(routes[k])).value, ip) {
      var k :| 0 <= k < |routes| && Contains(ParsePrefix(TrimSpace(routes[k])).value, ip);
      var p := ParsePrefix(TrimSpace(routes[k])).value;
      MaskedContains(p, ip);
      assert Denoted(routes[k]) == Ok(Masked(p));
      assert Masked(p) in ps;
    }
  }

  /** No planned route is the default route, each is masked and prints as the
      canonical text; of two that overlap the more specific one comes first. */
  lemma {:induction false} PlannedRoutes(routes: seq<string>, ps: seq<Prefix>, i: nat, j: nat, ip: Address, x: Address)
    requires Canonical(ps, routes) && i < j < |ps|
    ensures ps[i].bits > 0 && IsMasked(ps[i]) && RouteOk(PrintPrefix(ps[i]))
    ensures Contains(ps[i], ip) && Contains(ps[j], ip) ==>
              ps[i].bits > ps[j].bits && (Contains(ps[i], x) ==> Contains(ps[j], x))
  {
    PlannedRoute(routes, ps, i);
    PlannedRoute(routes, ps, j);
    if Contains(ps[i], ip) && Contains(ps[j], ip) {
      if Contains(ps[i], x) {
        Nested(ps[j], ps[i], ip, x);
      }
    }
  }

  lemma {:induction false} PlannedRoute(routes: seq<string>, ps: seq<Prefix>, i: nat)
    requires Canonical(ps, routes) && i < |ps|
    ensures ps[i].bits > 0 && IsMasked(ps[i]) && RouteOk(PrintPrefix(ps[i]))
  {
    assert ps[i] in ps;
    var k :| 0 <= k < |routes| && Denoted(routes[k]) == Ok(ps[i]);
    MaskedIsMasked(ParsePrefix(TrimSpace(routes[k])).value);
    ParsePrintPrefix(ps[i]);
  }

  /** The routes of an accepted request are planned one for one. */
  lemma {:induction false} AcceptedRoutesPlanned(routes: seq<string>, ps: seq<Prefix>, text: string)
    requires RoutesOk(routes) && Canonical(ps, routes)
    ensures RoutesPlannable(routes)
    ensures text in routes <==> exists p :: p in ps && PrintPrefix(p) == text
  {
    forall k | 0 <= k < |routes|
      ensures Denoted(routes[k]).Ok? && PrintPrefix(Denoted(routes[k]).value) == routes[k]
    {
      AcceptedDenotes(routes[k]);
    }
    if text in routes {
      var k :| 0 <= k < |routes| && routes[k] == text;
      assert Denotes(routes, Denoted(routes[k]).value);
    }
    if exists p :: p in ps && PrintPrefix(p) == text {
      var p :| p in ps && PrintPrefix(p) == text;
      var k :| 0 <= k < |routes| && Denoted(routes[k]) == Ok(p);
    }
  }

  lemma {:induction false} AcceptedDenotes(route: string)
    requires RouteOk(route)
    ensures Denoted(route) == Ok(ParsePrefix(route).value) && PrintPrefix(ParsePrefix(route).value) == route
  {
    PrintParsePrefix(route);
    PrintedPlain(ParsePrefix(route).value);
  }
}
