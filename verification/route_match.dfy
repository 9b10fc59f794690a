/** Which route an address takes (vpntoris-tray/main.go): the first match of the
    proxy script, the running maximum of parseFlows, and the conflict flag of the
    route check. */
module RouteMatch {
  import opened Wrappers
  import opened IPv4
  import opened IPText
  import opened Routes
  import opened Sorting

  predicate Longest(ps: seq<Prefix>, ip: Address, p: Prefix) {
    p in ps && Contains(p, ip) && forall q :: q in ps && Contains(q, ip) ==> q.bits <= p.bits
  }

  predicate AllMasked(ps: seq<Prefix>) {
    forall p :: p in ps ==> IsMasked(p)
  }

  ghost predicate SameSet(ps: seq<Prefix>, qs: seq<Prefix>) {
    forall p :: p in ps <==> p in qs
  }

  /** Longest matches over one set of routes are the same prefix. */
  lemma {:induction false} LongestUnique(ps: seq<Prefix>, qs: seq<Prefix>, ip: Address, p: Prefix, q: Prefix)
    requires SameSet(ps, qs) && AllMasked(ps) && Longest(ps, ip, p) && Longest(qs, ip, q)
    ensures p == q
  {
    SharedAddress(p, q, ip);
  }

  predicate Descending<T(!new)>(xs: seq<T>, bits: T -> nat) {
    forall i, j :: 0 <= i < j < |xs| ==> bits(xs[i]) >= bits(xs[j])
  }

  // ---- The proxy script ----

  datatype Mapping = Mapping(port: string, routes: seq<ProxyRoute>)

  datatype ProxyLine = ProxyLine(route: ProxyRoute, port: string)

  function LinesOf(m: Mapping): seq<ProxyLine> {
    seq(|m.routes|, k requires 0 <= k < |m.routes| => ProxyLine(m.routes[k], m.port))
  }

  function AllLines(mappings: seq<Mapping>): seq<ProxyLine> {
    if mappings == [] then [] else AllLines(mappings[..|mappings| - 1]) + LinesOf(mappings[|mappings| - 1])
  }

  /** Route `k` of mapping `m`. */
  predicate Maps(mappings: seq<Mapping>, m: nat, k: nat, l: ProxyLine) {
    m < |mappings| && k < |mappings[m].routes| && l.route == mappings[m].routes[k] && l.port == mappings[m].port
  }

  /** There is a test for every route of every mapping, which sends it to the
      port of this mapping, and no other test. */
  lemma {:induction false} LinesWritten(mappings: seq<Mapping>, l: ProxyLine)
    ensures l in AllLines(mappings) <==> exists m: nat, k: nat :: Maps(mappings, m, k, l)
  {
    if mappings != [] {
      var n := |mappings| - 1;
      LinesWritten(mappings[..n], l);
      if l in AllLines(mappings[..n]) {
        var m: nat, k: nat :| Maps(mappings[..n], m, k, l);
        assert Maps(mappings, m, k, l);
      } else if l in LinesOf(mappings[n]) {
        var k: nat :| k < |mappings[n].routes| && LinesOf(mappings[n])[k] == l;
        assert Maps(mappings, n, k, l);
      }
      if m: nat, k: nat :| Maps(mappings, m, k, l) {
        if m < n {
          assert Maps(mappings[..n], m, k, l);
        } else {
          assert LinesOf(mappings[n])[k] == l;
        }
      }
    }
  }

  /** The tests of the script, in order.  The mappings come in no fixed order. */
  method ProxyScript(mappings: seq<Mapping>) returns (lines: seq<ProxyLine>)
    ensures multiset(lines) == multiset(AllLines(mappings)) && Descending(lines, (l: ProxyLine) => l.route.prefix)
  {
    var entries: seq<ProxyLine> := [];
    for m := 0 to |mappings|
      invariant entries == AllLines(mappings[..m])
    {
      var mapping := mappings[m];
      assert mappings[..m + 1][..m] == mappings[..m];
      var routes: seq<ProxyLine> := [];
      for k := 0 to |mapping.routes|
        invariant routes == LinesOf(mapping)[..k]
      {
        routes := routes + [ProxyLine(mapping.routes[k], mapping.port)];
      }
      assert routes == LinesOf(mapping);
      entries := entries + routes;
    }
    assert mappings[..|mappings|] == mappings;
    lines := SortSlice(entries, (a: ProxyLine, b: ProxyLine) => a.route.prefix > b.route.prefix);
  }

  /** isInNet on the printed network and mask. */
  predicate IsInNet(ip: Address, r: ProxyRoute) {
    match (ParseAddress(r.network), ParseAddress(r.mask))
    case (Some(network), Some(mask)) => And(ip, mask) == And(network, mask)
    case _ => false
  }

  lemma {:induction false} IsInNetIff(p: Prefix, ip: Address)
    ensures IsInNet(ip, RouteOf(p)) <==> Contains(p, ip)
  {
    ParsePrintAddress(p.addr);
    ParsePrintAddress(Mask(p.bits));
  }

  /** The index of the first hit, or the length. */
  function First<T(!new)>(xs: seq<T>, hit: T -> bool): (k: nat)
    ensures k <= |xs| && (k < |xs| ==> hit(xs[k])) && forall j :: 0 <= j < k ==> !hit(xs[j])
  {
    if xs == [] || hit(xs[0]) then 0
    else
      var k := First(xs[1..], hit);
      assert forall j :: 0 < j < |xs| ==> xs[j] == xs[1..][j - 1];
      1 + k
  }

  /** The line that FindProxyForURL takes; the length stands for DIRECT. */
  function FindProxy(lines: seq<ProxyLine>, ip: Address): nat {
    First(lines, (l: ProxyLine) => IsInNet(ip, l.route))
  }

  predicate Written(lines: seq<ProxyLine>, ps: seq<Prefix>) {
    |lines| == |ps| && forall k :: 0 <= k < |ps| ==> lines[k].route == RouteOf(ps[k])
  }

  lemma {:induction false} FindProxyFirst(lines: seq<ProxyLine>, ps: seq<Prefix>, ip: Address)
    requires Written(lines, ps)
    ensures FindProxy(lines, ip) == First(ps, (p: Prefix) => Contains(p, ip))
  {
    forall k | 0 <= k < |ps|
      ensures IsInNet(ip, lines[k].route) <==> Contains(ps[k], ip)
    {
      IsInNetIff(ps[k], ip);
    }
  }

  lemma {:induction false} FirstOfDescending(ps: seq<Prefix>, hit: Prefix -> bool)
    requires Descending(ps, (p: Prefix) => p.bits)
    ensures var k := First(ps, hit);
            if k < |ps| then hit(ps[k]) && forall q :: q in ps && hit(q) ==> q.bits <= ps[k].bits
            else forall p :: p in ps ==> !hit(p)
  {
    var k := First(ps, hit);
    forall q | q in ps && hit(q)
      ensures k < |ps| && q.bits <= ps[k].bits
    {
      var j :| 0 <= j < |ps| && ps[j] == q;
      assert j >= k;
    }
  }

  /** The first match in descending order is a longest one. */
  lemma {:induction false} FindProxyLongest(lines: seq<ProxyLine>, ps: seq<Prefix>, ip: Address)
    requires Written(lines, ps) && Descending(ps, (p: Prefix) => p.bits)
    ensures FindProxy(lines, ip) < |ps| ==> Longest(ps, ip, ps[FindProxy(lines, ip)])
    ensures FindProxy(lines, ip) >= |ps| ==> forall p :: p in ps ==> !Contains(p, ip)
  {
    hide FindProxy;
    FindProxyFirst(lines, ps, ip);
    FirstOfDescending(ps, (p: Prefix) => Contains(p, ip));
  }

  /** A route that prints a masked prefix. */
  predicate Proper(r: ProxyRoute) {
    ParsePrefix(RouteText(r)).Some? && IsMasked(ParsePrefix(RouteText(r)).value) && RouteOf(ParsePrefix(RouteText(r)).value) == r
  }

  predicate AllProper(rs: seq<ProxyRoute>) {
    forall k :: 0 <= k < |rs| ==> Proper(rs[k])
  }

  lemma {:induction false} ParsedProper(text: string)
    requires ParsedRoutes(text).Ok?
    ensures AllProper(ParsedRoutes(text).value)
  {
    forall k | 0 <= k < |ParsedRoutes(text).value|
      ensures Proper(ParsedRoutes(text).value[k])
    {
      ParsedRoutePrints(text, k);
    }
  }

  function NetworkOf(r: ProxyRoute): Prefix {
    match ParsePrefix(RouteText(r)) case Some(p) => p case None => Prefix(0, 0)
  }

  function LinePrefixes(lines: seq<ProxyLine>): (ps: seq<Prefix>)
    ensures |ps| == |lines|
  {
    seq(|lines|, k requires 0 <= k < |lines| => NetworkOf(lines[k].route))
  }

  lemma {:induction false} LinesProper(mappings: seq<Mapping>)
    requires forall k :: 0 <= k < |mappings| ==> AllProper(mappings[k].routes)
    ensures forall l :: l in AllLines(mappings) ==> Proper(l.route)
  {
    if mappings != [] {
      var n := |mappings| - 1;
      assert forall k :: 0 <= k < n ==> mappings[..n][k] == mappings[k];
      LinesProper(mappings[..n]);
    }
  }

  /** The script over routes that were read from text tests their networks in
      descending order. */
  lemma {:induction false} ScriptWritten(mappings: seq<Mapping>, texts: seq<string>, lines: seq<ProxyLine>)
    requires |texts| == |mappings| && forall k :: 0 <= k < |mappings| ==> ParsedRoutes(texts[k]) == Ok(mappings[k].routes)
    requires multiset(lines) == multiset(AllLines(mappings)) && Descending(lines, (l: ProxyLine) => l.route.prefix)
    ensures forall l :: l in lines ==> Proper(l.route)
    ensures Written(lines, LinePrefixes(lines)) && AllMasked(LinePrefixes(lines))
    ensures Descending(LinePrefixes(lines), (p: Prefix) => p.bits)
  {
    forall k | 0 <= k < |mappings|
      ensures AllProper(mappings[k].routes)
    {
      ParsedProper(texts[k]);
    }
    LinesProper(mappings);
    forall l | l in lines
      ensures Proper(l.route)
    {
      assert l in multiset(lines);
      assert l in AllLines(mappings);
    }
    ProperWritten(lines);
  }

  lemma {:induction false} ProperWritten(lines: seq<ProxyLine>)
    requires (forall l :: l in lines ==> Proper(l.route)) && Descending(lines, (l: ProxyLine) => l.route.prefix)
    ensures Written(lines, LinePrefixes(lines)) && AllMasked(LinePrefixes(lines))
    ensures Descending(LinePrefixes(lines), (p: Prefix) => p.bits)
  {
    forall k | 0 <= k < |lines|
      ensures var p := LinePrefixes(lines)[k]; lines[k].route == RouteOf(p) && IsMasked(p) && p.bits == lines[k].route.prefix
    {
      assert Proper(lines[k].route);
    }
  }

  // ---- parseFlows ----

  datatype ConfiguredRoute = ConfiguredRoute(profile: string, block: Prefix)

  function Blocks(routes: seq<ConfiguredRoute>): (ps: seq<Prefix>)
    ensures |ps| == |routes|
  {
    seq(|routes|, k requires 0 <= k < |routes| => routes[k].block)
  }

  /** Route `k` matches, all earlier matches are shorter, no later one longer. */
  predicate BestAt(routes: seq<ConfiguredRoute>, ip: Address, k: nat) {
    && k < |routes| && Contains(routes[k].block, ip)
    && (forall j :: 0 <= j < k && Contains(routes[j].block, ip) ==> routes[j].block.bits < routes[k].block.bits)
    && (forall j :: 0 <= j < |routes| && Contains(routes[j].block, ip) ==> routes[j].block.bits <= routes[k].block.bits)
  }

  ghost predicate Best(routes: seq<ConfiguredRoute>, ip: Address, profile: string, bits: int) {
    if bits < 0 then bits == -1 && profile == "" && forall k :: 0 <= k < |routes| ==> !Contains(routes[k].block, ip)
    else exists k: nat :: BestAt(routes, ip, k) && routes[k].profile == profile && routes[k].block.bits == bits
  }

  /** The scan of parseFlows for the route of one connection. */
  method BestRoute(routes: seq<ConfiguredRoute>, ip: Address) returns (bestProfile: string, bestPrefix: int)
    ensures Best(routes, ip, bestProfile, bestPrefix)
  {
    bestProfile, bestPrefix := "", -1;
    ghost var at: nat := 0;
    for next := 0 to |routes|
      invariant bestPrefix >= -1
      invariant bestPrefix == -1 ==> bestProfile == "" && forall k :: 0 <= k < next ==> !Contains(routes[k].block, ip)
      invariant bestPrefix >= 0 ==> at < next && BestAt(routes[..next], ip, at)
      invariant bestPrefix >= 0 ==> routes[at].profile == bestProfile && routes[at].block.bits == bestPrefix
    {
      var route := routes[next];
      if Contains(route.block, ip) && route.block.bits > bestPrefix {
        bestProfile, bestPrefix := route.profile, route.block.bits;
        at := next;
      }
      assert routes[..next + 1] == routes[..next] + [route];
    }
    assert routes[..|routes|] == routes;
  }

  /** Entry `k` and the profile with its length stand for one and the same
      network, or both for none. */
  ghost predicate SameChoice(ps: seq<Prefix>, k: nat, routes: seq<ConfiguredRoute>, ip: Address, profile: string, bits: int) {
    if k >= |ps| then bits == -1 && profile == ""
    else exists b: nat :: BestAt(routes, ip, b) && routes[b].profile == profile && routes[b].block == ps[k] && bits == ps[k].bits
  }

  /** Over one set of routes the proxy script and parseFlows send an address to
      the same network, or both to none. */
  lemma {:induction false} LongestPrefixAgreement(lines: seq<ProxyLine>, ps: seq<Prefix>, routes: seq<ConfiguredRoute>, ip: Address,
                               profile: string, bits: int)
    requires Written(lines, ps) && AllMasked(ps) && Descending(ps, (p: Prefix) => p.bits)
    requires SameSet(ps, Blocks(routes)) && Best(routes, ip, profile, bits)
    ensures SameChoice(ps, FindProxy(lines, ip), routes, ip, profile, bits)
  {
    var k := FindProxy(lines, ip);
    FindProxyLongest(lines, ps, ip);
    if bits >= 0 {
      var b: nat :| BestAt(routes, ip, b) && routes[b].profile == profile && routes[b].block.bits == bits;
      BestIsLongest(routes, ip, b);
      if k < |ps| {
        LongestUnique(ps, Blocks(routes), ip, ps[k], routes[b].block);
      }
    } else {
      NoneContained(ps, routes, ip);
    }
  }

  lemma {:induction false} NoneContained(ps: seq<Prefix>, routes: seq<ConfiguredRoute>, ip: Address)
    requires SameSet(ps, Blocks(routes)) && forall k :: 0 <= k < |routes| ==> !Contains(routes[k].block, ip)
    ensures forall p :: p in ps ==> !Contains(p, ip)
  {
    forall p | p in ps
      ensures !Contains(p, ip)
    {
      assert p in Blocks(routes);
    }
  }

  lemma {:induction false} BestIsLongest(routes: seq<ConfiguredRoute>, ip: Address, b: nat)
    requires BestAt(routes, ip, b)
    ensures Longest(Blocks(routes), ip, routes[b].block)
  {
    assert Blocks(routes)[b] == routes[b].block;
  }

  // ---- The route check ----

  datatype Config = Config(name: string, routes: string)

  datatype Match = Match(profile: string, cidr: string, prefix: nat)

  /** The configured routes as the matches they would give. */
  function Candidates(c: Config): seq<Match> {
    match ParsedRoutes(c.routes)
    case Err(_) => []
    case Ok(rs) => seq(|rs|, k requires 0 <= k < |rs| => Match(c.name, RouteText(rs[k]), rs[k].prefix))
  }

  function AllCandidates(configs: seq<Config>): seq<Match> {
    if configs == [] then [] else AllCandidates(configs[..|configs| - 1]) + Candidates(configs[|configs| - 1])
  }

  predicate Hit(m: Match, ip: Address) {
    ParseCIDR(m.cidr).Some? && Contains(ParseCIDR(m.cidr).value, ip)
  }

  function Hits(ms: seq<Match>, hit: Match -> bool): seq<Match> {
    if ms == [] then [] else Hits(ms[..|ms| - 1], hit) + if hit(ms[|ms| - 1]) then [ms[|ms| - 1]] else []
  }

  lemma {:induction false} HitsAppend(a: seq<Match>, b: seq<Match>, hit: Match -> bool)
    ensures Hits(a + b, hit) == Hits(a, hit) + Hits(b, hit)
  {
    if b == [] {
      assert a + b == a;
    } else {
      var n := |b| - 1;
      assert (a + b)[..|a + b| - 1] == a + b[..n];
      HitsAppend(a, b[..n], hit);
    }
  }

  /** Filtering keeps every occurrence of a hit and no other. */
  lemma {:induction false} HitsCount(ms: seq<Match>, hit: Match -> bool, m: Match)
    ensures multiset(Hits(ms, hit))[m] == if hit(m) then multiset(ms)[m] else 0
  {
    if ms != [] {
      var n := |ms| - 1;
      assert ms == ms[..n] + [ms[n]];
      HitsCount(ms[..n], hit, m);
    }
  }

  method RouteCheck(configs: seq<Config>, target: Address) returns (matches: seq<Match>, conflict: bool)
    ensures Checked(AllCandidates(configs), target, matches, conflict)
  {
    var hit := (m: Match) => Hit(m, target);
    var found: seq<Match> := [];
    for c := 0 to |configs|
      invariant found == Hits(AllCandidates(configs[..c]), hit)
    {
      var config := configs[c];
      assert configs[..c + 1][..c] == configs[..c];
      var routes := ParseRoutes(config.routes);
      var here := CheckRoutes(config.name, if routes.Ok? then routes.value else [], hit);
      HitsAppend(AllCandidates(configs[..c]), Candidates(config), hit);
      found := found + here;
    }
    assert configs[..|configs|] == configs;
    matches := SortSlice(found, (a: Match, b: Match) => a.prefix > b.prefix);
    conflict := |matches| > 1 && matches[0].prefix == matches[1].prefix;
  }

  /** The inner loop: the routes of one profile. */
  method CheckRoutes(name: string, routes: seq<ProxyRoute>, hit: Match -> bool) returns (found: seq<Match>)
    ensures found == Hits(seq(|routes|, k requires 0 <= k < |routes| => Match(name, RouteText(routes[k]), routes[k].prefix)), hit)
  {
    var all := seq(|routes|, k requires 0 <= k < |routes| => Match(name, RouteText(routes[k]), routes[k].prefix));
    found := [];
    for k := 0 to |routes|
      invariant found == Hits(all[..k], hit)
    {
      var m := Match(name, RouteText(routes[k]), routes[k].prefix);
      assert all[..k + 1][..k] == all[..k] && all[k] == m;
      if hit(m) {
        found := found + [m];
      }
    }
    assert all[..|routes|] == all;
  }

  predicate Checked(all: seq<Match>, ip: Address, matches: seq<Match>, conflict: bool) {
    && multiset(matches) == multiset(Hits(all, m => Hit(m, ip))) && Descending(matches, (m: Match) => m.prefix)
    && (conflict <==> |matches| > 1 && matches[0].prefix == matches[1].prefix)
  }

  /** The text of a masked prefix, beside its length. */
  predicate Printed(m: Match) {
    ParsePrefix(m.cidr).Some? && IsMasked(ParsePrefix(m.cidr).value) && ParsePrefix(m.cidr).value.bits == m.prefix
  }

  lemma {:induction false} CandidatePrinted(c: Config, k: nat)
    requires k < |Candidates(c)|
    ensures Printed(Candidates(c)[k])
  {
    ParsedRoutePrints(c.routes, k);
  }

  lemma {:induction false} CandidatesPrinted(configs: seq<Config>)
    ensures forall m :: m in AllCandidates(configs) ==> Printed(m)
  {
    if configs != [] {
      var c := configs[|configs| - 1];
      CandidatesPrinted(configs[..|configs| - 1]);
      forall k | 0 <= k < |Candidates(c)|
        ensures Printed(Candidates(c)[k])
      {
        CandidatePrinted(c, k);
      }
    }
  }

  /** Route `k` of configuration `c`, as it is reported. */
  predicate Configures(configs: seq<Config>, c: nat, k: nat, m: Match) {
    && c < |configs| && ParsedRoutes(configs[c].routes).Ok? && k < |ParsedRoutes(configs[c].routes).value|
    && var r := ParsedRoutes(configs[c].routes).value[k];
       m.profile == configs[c].name && m.cidr == RouteText(r) && m.prefix == r.prefix
  }

  lemma {:induction false} CandidatesWritten(configs: seq<Config>, m: Match)
    ensures m in AllCandidates(configs) <==> exists c: nat, k: nat :: Configures(configs, c, k, m)
  {
    hide ParsedRoutes, RouteText;
    if configs != [] {
      var n := |configs| - 1;
      CandidatesWritten(configs[..n], m);
      if m in AllCandidates(configs[..n]) {
        var c: nat, k: nat :| Configures(configs[..n], c, k, m);
        assert Configures(configs, c, k, m);
      } else if m in Candidates(configs[n]) {
        var k: nat :| k < |Candidates(configs[n])| && Candidates(configs[n])[k] == m;
        assert Configures(configs, n, k, m);
      }
      if c: nat, k: nat :| Configures(configs, c, k, m) {
        if c < n {
          assert Configures(configs[..n], c, k, m);
        } else {
          assert Candidates(configs[n])[k] == m;
        }
      }
    }
  }

  /** What the check reports: the routes of readable configurations, each under
      the name of its profile, whose network contains the target; no other. */
  lemma {:induction false} MatchesWritten(configs: seq<Config>, ip: Address, matches: seq<Match>, conflict: bool, m: Match)
    requires Checked(AllCandidates(configs), ip, matches, conflict)
    ensures m in matches <==>
              && (exists c: nat, k: nat :: Configures(configs, c, k, m))
              && ParsePrefix(m.cidr).Some? && Contains(ParsePrefix(m.cidr).value, ip)
  {
    hide ParsePrefix, ParseCIDR, Contains, AllCandidates, Hits;
    var all := AllCandidates(configs);
    HitsCount(all, m => Hit(m, ip), m);
    assert m in matches <==> m in multiset(matches);
    assert m in all <==> m in multiset(all);
    CandidatesWritten(configs, m);
    CandidatesPrinted(configs);
    if m in all {
      HitPrinted(m, ip);
    }
  }

  lemma {:induction false} HitPrinted(m: Match, ip: Address)
    requires Printed(m)
    ensures Hit(m, ip) <==> ParsePrefix(m.cidr).Some? && Contains(ParsePrefix(m.cidr).value, ip)
  {
    ParseCIDRAgrees(m.cidr);
  }

  /** Hits of equal length are routes to one and the same network. */
  lemma {:induction false} SameLengthSameText(m: Match, n: Match, ip: Address)
    requires Printed(m) && Printed(n) && Hit(m, ip) && Hit(n, ip) && m.prefix == n.prefix
    ensures m.cidr == n.cidr
  {
    ParseCIDRAgrees(m.cidr);
    ParseCIDRAgrees(n.cidr);
    SharedAddress(ParsePrefix(m.cidr).value, ParsePrefix(n.cidr).value, ip);
    PrintParsePrefix(m.cidr);
    PrintParsePrefix(n.cidr);
  }

  /** `m` is a longest match and its network is configured a second time, as
      `n`, by the same or by another profile. */
  predicate TwiceConfigured(all: seq<Match>, ip: Address, m: Match, n: Match) {
    && multiset{m, n} <= multiset(all) && m.cidr == n.cidr && Hit(m, ip)
    && forall other :: other in all && Hit(other, ip) ==> other.prefix <= m.prefix
  }

  /** The conflict flag is set exactly when the longest matching network is
      configured at least twice. */
  lemma {:induction false} ConflictIff(configs: seq<Config>, all: seq<Match>, ip: Address, matches: seq<Match>, conflict: bool)
    requires all == AllCandidates(configs) && Checked(all, ip, matches, conflict)
    ensures conflict <==> exists m, n :: TwiceConfigured(all, ip, m, n)
  {
    CandidatesPrinted(configs);
    ConflictAmong(all, ip, matches, conflict);
  }

  lemma {:induction false} ConflictAmong(all: seq<Match>, ip: Address, matches: seq<Match>, conflict: bool)
    requires Checked(all, ip, matches, conflict) && forall m :: m in all ==> Printed(m)
    ensures conflict <==> exists m, n :: TwiceConfigured(all, ip, m, n)
  {
    HitsCounted(all, ip, matches);
    if conflict {
      ConflictTwice(all, ip, matches);
    }
    if exists m, n :: TwiceConfigured(all, ip, m, n) {
      var m, n :| TwiceConfigured(all, ip, m, n);
      TwiceConflicts(all, ip, matches, m, n);
    }
  }

  lemma {:induction false} HitsCounted(all: seq<Match>, ip: Address, matches: seq<Match>)
    requires multiset(matches) == multiset(Hits(all, m => Hit(m, ip)))
    ensures CountsHits(all, ip, matches)
  {
    forall m
      ensures multiset(matches)[m] == if Hit(m, ip) then multiset(all)[m] else 0
    {
      HitsCount(all, m => Hit(m, ip), m);
    }
  }

  ghost predicate CountsHits(all: seq<Match>, ip: Address, matches: seq<Match>) {
    forall m :: multiset(matches)[m] == if Hit(m, ip) then multiset(all)[m] else 0
  }

  lemma {:induction false} ConflictTwice(all: seq<Match>, ip: Address, matches: seq<Match>)
    requires CountsHits(all, ip, matches) && Descending(matches, (m: Match) => m.prefix) && forall m :: m in all ==> Printed(m)
    requires |matches| > 1 && matches[0].prefix == matches[1].prefix
    ensures TwiceConfigured(all, ip, matches[0], matches[1])
  {
    var m, n := matches[0], matches[1];
    assert matches == [m, n] + matches[2..];
    assert multiset{m, n} <= multiset(matches);
    assert m in multiset(matches) && n in multiset(matches);
    SameLengthSameText(m, n, ip);
    forall other | other in all && Hit(other, ip)
      ensures other.prefix <= m.prefix
    {
      assert other in multiset(matches);
    }
  }

  lemma {:induction false} TwiceConflicts(all: seq<Match>, ip: Address, matches: seq<Match>, m: Match, n: Match)
    requires CountsHits(all, ip, matches) && Descending(matches, (m: Match) => m.prefix) && forall m :: m in all ==> Printed(m)
    requires TwiceConfigured(all, ip, m, n)
    ensures |matches| > 1 && matches[0].prefix == matches[1].prefix
  {
    assert m in multiset(all) && n in multiset(all);
    assert m in all && n in all;
    SameTextHits(m, n, ip);
    CountedHits(all, ip, matches, m, n);
    TopTwo(matches, m, n);
  }

  lemma {:induction false} SameTextHits(m: Match, n: Match, ip: Address)
    requires Printed(m) && Printed(n) && m.cidr == n.cidr && Hit(m, ip)
    ensures Hit(n, ip) && m.prefix == n.prefix
  {
  }

  lemma {:induction false} CountedHits(all: seq<Match>, ip: Address, matches: seq<Match>, m: Match, n: Match)
    requires CountsHits(all, ip, matches) && TwiceConfigured(all, ip, m, n) && Hit(n, ip)
    ensures multiset{m, n} <= multiset(matches)
    ensures forall other :: other in matches ==> other.prefix <= m.prefix
  {
    assert multiset(matches)[m] == multiset(all)[m] && multiset(matches)[n] == multiset(all)[n];
    forall other | other in matches
      ensures other.prefix <= m.prefix
    {
      assert other in multiset(matches);
      assert other in multiset(all);
    }
  }

  lemma {:induction false} TopTwo(matches: seq<Match>, m: Match, n: Match)
    requires multiset{m, n} <= multiset(matches) && m.prefix == n.prefix
    requires Descending(matches, (m: Match) => m.prefix) && forall other :: other in matches ==> other.prefix <= m.prefix
    ensures |matches| > 1 && matches[0].prefix == matches[1].prefix
  {
    assert m in multiset(matches);
    var first, rest := matches[0], matches[1..];
    assert matches == [first] + rest;
    assert m in multiset(rest) || n in multiset(rest);
    var k :| 0 <= k < |rest| && (rest[k] == m || rest[k] == n);
    assert matches[k + 1] == rest[k];
  }
}
