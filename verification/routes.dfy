/** Route lists: what the user wrote (vpntoris-tray/main.go, parseRoutes), what
    the helper accepts (vpntoris-tray/internal/fortihelper/request.go,
    validateRoutes), the host routes of DNS servers (vpntoris-tray/
    native_common.go), and masks in text (vpntoris-tray/internal/netbackend/
    cidr.go). */
module Routes {
  import opened Wrappers
  import opened Text
  import opened IPv4
  import opened IPText

  datatype RouteError = NoRoutes | TooMany | BadRoute(text: string) | DefaultRoute | BadSplitDNS

  datatype ProxyRoute = ProxyRoute(network: string, mask: string, prefix: nat)

  // ---- parseRoutes ----

  const SEPARATORS := {',', ';', '\n'}

  function NonEmpty(pieces: seq<string>): seq<string> {
    if pieces == [] then [] else (if pieces[0] == "" then [] else [pieces[0]]) + NonEmpty(pieces[1..])
  }

  /** strings.FieldsFunc with the three separators. */
  function RouteFields(value: string): seq<string> {
    NonEmpty(Split(value, SEPARATORS))
  }

  function RouteOf(p: Prefix): ProxyRoute {
    ProxyRoute(PrintAddress(p.addr), PrintAddress(Mask(p.bits)), p.bits)
  }

  function ReadRoute(field: string): Option<ProxyRoute> {
    match ParseCIDR(TrimSpace(field))
    case None => None
    case Some(network) => Some(RouteOf(network))
  }

  /** All readings, or an error for the first text that has none. */
  function ReadAll<T>(texts: seq<string>, read: string -> Option<T>): Result<seq<T>, RouteError> {
    if texts == [] then Ok([]) else
    var n := |texts| - 1;
    match ReadAll(texts[..n], read)
    case Err(e) => Err(e)
    case Ok(values) =>
      match read(texts[n])
      case None => Err(BadRoute(TrimSpace(texts[n])))
      case Some(value) => Ok(values + [value])
  }

  lemma {:induction false} ReadAllStops<T>(texts: seq<string>, read: string -> Option<T>, n: nat)
    requires n <= |texts| && ReadAll(texts[..n], read).Err?
    ensures ReadAll(texts, read) == ReadAll(texts[..n], read)
    decreases |texts|
  {
    if n == |texts| {
      assert texts[..n] == texts;
    } else {
      var init := texts[..|texts| - 1];
      assert init[..n] == texts[..n];
      ReadAllStops(init, read, n);
    }
  }

  lemma {:induction false} ReadAllEach<T>(texts: seq<string>, read: string -> Option<T>)
    requires ReadAll(texts, read).Ok?
    ensures |ReadAll(texts, read).value| == |texts|
    ensures forall k :: 0 <= k < |texts| ==> read(texts[k]) == Some(ReadAll(texts, read).value[k])
  {
    if texts != [] {
      var init := texts[..|texts| - 1];
      ReadAllEach(init, read);
      assert forall k :: 0 <= k < |init| ==> texts[k] == init[k];
    }
  }

  lemma {:induction false} ReadAllOk<T>(texts: seq<string>, read: string -> Option<T>, values: seq<T>)
    requires |texts| == |values| && forall k :: 0 <= k < |texts| ==> read(texts[k]) == Some(values[k])
    ensures ReadAll(texts, read) == Ok(values)
  {
    if texts == [] {
      assert values == [];
    } else {
      var n := |texts| - 1;
      assert forall k :: 0 <= k < n ==> texts[..n][k] == texts[k] && values[..n][k] == values[k];
      ReadAllOk(texts[..n], read, values[..n]);
      assert values[..n] + [values[n]] == values;
    }
  }

  function ParsedRoutes(value: string): Result<seq<ProxyRoute>, RouteError> {
    if RouteFields(value) == [] then Err(NoRoutes) else ReadAll(RouteFields(value), ReadRoute)
  }

  predicate Readable(field: string) {
    ParseCIDR(TrimSpace(field)).Some?
  }

  /** The error names the first field that is no network. */
  ghost predicate FirstUnread(fields: seq<string>, problem: RouteError) {
    exists k :: 0 <= k < |fields| && !Readable(fields[k]) && problem == BadRoute(TrimSpace(fields[k]))
                && forall j :: 0 <= j < k ==> Readable(fields[j])
  }

  lemma {:induction false} ReadAllOutcome(fields: seq<string>)
    ensures ReadAll(fields, ReadRoute).Ok? <==> forall k :: 0 <= k < |fields| ==> Readable(fields[k])
    ensures ReadAll(fields, ReadRoute).Err? ==> FirstUnread(fields, ReadAll(fields, ReadRoute).problem)
  {
    hide ReadRoute, Readable, TrimSpace, FirstUnread;
    if fields != [] {
      var n := |fields| - 1;
      ReadAllOutcome(fields[..n]);
      assert forall k :: 0 <= k < n ==> fields[k] == fields[..n][k];
      ReadableIff(fields[n]);
      if ReadAll(fields[..n], ReadRoute).Err? {
        StillUnread(fields, n, ReadAll(fields[..n], ReadRoute).problem);
      } else if !Readable(fields[n]) {
        LastUnread(fields, n);
      }
    }
  }

  lemma {:induction false} ReadableIff(field: string)
    ensures Readable(field) <==> ReadRoute(field).Some?
  {
  }

  lemma {:induction false} StillUnread(fields: seq<string>, n: nat, problem: RouteError)
    requires n <= |fields| && FirstUnread(fields[..n], problem)
    ensures FirstUnread(fields, problem) && exists k :: 0 <= k < |fields| && !Readable(fields[k])
  {
    hide Readable, TrimSpace;
    var init := fields[..n];
    var k :| 0 <= k < |init| && !Readable(init[k]) && problem == BadRoute(TrimSpace(init[k]))
             && forall j :: 0 <= j < k ==> Readable(init[j]);
    assert !Readable(fields[k]);
    assert forall j :: 0 <= j < k ==> fields[j] == init[j];
  }

  lemma {:induction false} LastUnread(fields: seq<string>, n: nat)
    requires n < |fields| && !Readable(fields[n]) && forall j :: 0 <= j < n ==> Readable(fields[j])
    ensures FirstUnread(fields, BadRoute(TrimSpace(fields[n])))
  {
  }

  lemma {:induction false} ParsedOutcome(value: string)
    ensures ParsedRoutes(value).Ok? <==>
              RouteFields(value) != [] && forall k :: 0 <= k < |RouteFields(value)| ==> Readable(RouteFields(value)[k])
    ensures ParsedRoutes(value).Err? ==>
              if RouteFields(value) == [] then ParsedRoutes(value).problem == NoRoutes
              else FirstUnread(RouteFields(value), ParsedRoutes(value).problem)
  {
    hide RouteFields, Readable, FirstUnread;
    ReadAllOutcome(RouteFields(value));
  }

  method ParseRoutes(value: string) returns (r: Result<seq<ProxyRoute>, RouteError>)
    ensures r == ParsedRoutes(value)
    ensures r.Ok? <==> RouteFields(value) != [] && forall k :: 0 <= k < |RouteFields(value)| ==> Readable(RouteFields(value)[k])
    ensures r.Err? ==> if RouteFields(value) == [] then r.problem == NoRoutes else FirstUnread(RouteFields(value), r.problem)
  {
    ParsedOutcome(value);
    var fields := RouteFields(value);
    if |fields| == 0 {
      return Err(NoRoutes);
    }
    r := ParseFields(fields, ReadRoute);
  }

  /** The loop of parseRoutes. */
  method ParseFields(fields: seq<string>, read: string -> Option<ProxyRoute>) returns (r: Result<seq<ProxyRoute>, RouteError>)
    ensures r == ReadAll(fields, read)
  {
    var routes: seq<ProxyRoute> := [];
    var next := 0;
    while next < |fields|
      invariant 0 <= next <= |fields|
      invariant ReadAll(fields[..next], read) == Ok(routes)
    {
      assert fields[..next + 1][..next] == fields[..next];
      var route := read(fields[next]);
      if route.None? {
        ReadAllStops(fields, read, next + 1);
        return Err(BadRoute(TrimSpace(fields[next])));
      }
      routes := routes + [route.value];
      next := next + 1;
    }
    assert fields[..|fields|] == fields;
    return Ok(routes);
  }

  /** A route as the program prints it. */
  function RouteText(r: ProxyRoute): string {
    r.network + "/" + Decimal(r.prefix)
  }

  lemma {:induction false} RouteTextIs(p: Prefix)
    ensures RouteText(RouteOf(p)) == PrintPrefix(p)
  {
    JoinTwo(PrintAddress(p.addr), Decimal(p.bits), '/');
  }

  lemma {:induction false} JoinTwo(a: string, b: string, separator: char)
    ensures Join([a, b], separator) == a + [separator] + b
  {
    assert [a, b][1..] == [b];
  }

  lemma {:induction false} TrimSpaceNone(s: string)
    requires s != "" && !IsSpace(s[0]) && !IsSpace(s[|s| - 1])
    ensures TrimSpace(s) == s
  {
  }

  lemma {:induction false} DigitsTrimmed(a: Address)
    ensures PrintAddress(a) != "" && IsDigit(PrintAddress(a)[0])
  {
  }

  /** Printed prefixes have no surrounding space and none of the separators. */
  lemma {:induction false} PrintedPlain(p: Prefix)
    ensures PrintPrefix(p) != "" && TrimSpace(PrintPrefix(p)) == PrintPrefix(p) && Free(PrintPrefix(p), SEPARATORS)
  {
    var s := PrintPrefix(p);
    RouteTextIs(p);
    DigitsTrimmed(p.addr);
    assert s[0] == PrintAddress(p.addr)[0];
    assert s[|s| - 1] == Decimal(p.bits)[|Decimal(p.bits)| - 1];
    TrimSpaceNone(s);
    JoinFree(Octets(p.addr), '.', SEPARATORS);
    JoinFree([PrintAddress(p.addr), Decimal(p.bits)], '/', SEPARATORS);
  }

  lemma {:induction false} ParsedMasked(s: string)
    requires ParseCIDR(s).Some?
    ensures IsMasked(ParseCIDR(s).value)
  {
    var parts := Split(s, {'/'});
    MaskedIsMasked(Prefix(ParseAddress(parts[0]).value, Value(parts[1])));
  }

  /** Every route that was read prints as the canonical text of its network,
      and its mask reads back as the mask of its length. */
  lemma {:induction false} ParsedRoutePrints(value: string, k: nat)
    requires ParsedRoutes(value).Ok? && k < |ParsedRoutes(value).value|
    ensures |RouteFields(value)| == |ParsedRoutes(value).value|
    ensures Prints(TrimSpace(RouteFields(value)[k]), ParsedRoutes(value).value[k])
  {
    ReadAllEach(RouteFields(value), ReadRoute);
    ReadRoutePrints(RouteFields(value)[k], ParsedRoutes(value).value[k]);
  }

  predicate Prints(text: string, r: ProxyRoute) {
    && r.prefix <= 32 && ParseCIDR(text).Some? && ParsePrefix(RouteText(r)) == ParseCIDR(text)
    && IsMasked(ParseCIDR(text).value) && RouteOf(ParseCIDR(text).value) == r
    && ParseAddress(r.mask) == Some(Mask(r.prefix))
  }

  lemma {:induction false} ReadRoutePrints(field: string, r: ProxyRoute)
    requires ReadRoute(field) == Some(r)
    ensures Prints(TrimSpace(field), r)
  {
    var p := ParseCIDR(TrimSpace(field)).value;
    ParsedMasked(TrimSpace(field));
    RouteTextIs(p);
    ParsePrintPrefix(p);
    ParsePrintAddress(Mask(p.bits));
  }

  function RoutesOf(ps: seq<Prefix>): (r: seq<ProxyRoute>)
    ensures |r| == |ps|
  {
    seq(|ps|, k requires 0 <= k < |ps| => RouteOf(ps[k]))
  }

  function PrintedList(ps: seq<Prefix>): (r: seq<string>)
    ensures |r| == |ps|
  {
    seq(|ps|, k requires 0 <= k < |ps| => PrintPrefix(ps[k]))
  }

  lemma {:induction false} NonEmptyAll(pieces: seq<string>)
    requires forall k :: 0 <= k < |pieces| ==> pieces[k] != ""
    ensures NonEmpty(pieces) == pieces
  {
    if pieces != [] {
      NonEmptyAll(pieces[1..]);
    }
  }

  lemma {:induction false} PrintedReads(p: Prefix)
    requires IsMasked(p)
    ensures ReadRoute(PrintPrefix(p)) == Some(RouteOf(p))
    ensures PrintPrefix(p) != "" && Free(PrintPrefix(p), SEPARATORS)
  {
    PrintedPlain(p);
    ParseCIDRPrefix(p);
  }

  /** A list of routes printed with commas, semicolons or line feeds reads as the
      same list. */
  lemma {:induction false} PrintedRoutesReadBack(ps: seq<Prefix>, separator: char)
    requires ps != [] && (separator == ',' || separator == ';' || separator == '\n')
    requires forall k :: 0 <= k < |ps| ==> IsMasked(ps[k])
    ensures ParsedRoutes(Join(PrintedList(ps), separator)) == Ok(RoutesOf(ps))
  {
    var texts := PrintedList(ps);
    forall k | 0 <= k < |ps|
      ensures texts[k] != "" && Free(texts[k], SEPARATORS) && ReadRoute(texts[k]) == Some(RoutesOf(ps)[k])
    {
      PrintedReads(ps[k]);
    }
    SplitJoin(texts, separator, SEPARATORS);
    NonEmptyAll(texts);
    ReadAllOk(texts, ReadRoute, RoutesOf(ps));
  }

  /** Nothing else separates routes. */
  lemma {:induction false} OneField(value: string)
    requires value != "" && forall i :: 0 <= i < |value| ==> value[i] != ',' && value[i] != ';' && value[i] != '\n'
    ensures RouteFields(value) == [value]
  {
    assert value[..|value|] == value;
    IndexIs(value, SEPARATORS, |value|);
    NonEmptyAll([value]);
  }

  // ---- validateRoutes ----

  /** The canonical text of a network other than the whole address space. */
  predicate RouteOk(s: string) {
    ParsePrefix(s).Some? && IsMasked(ParsePrefix(s).value) && ParsePrefix(s).value.bits > 0
  }

  predicate Distinct(routes: seq<string>) {
    forall i, j :: 0 <= i < j < |routes| ==> routes[i] != routes[j]
  }

  predicate RoutesOk(routes: seq<string>) {
    1 <= |routes| <= 64 && (forall k :: 0 <= k < |routes| ==> RouteOk(routes[k])) && Distinct(routes)
  }

  predicate DomainOk(domain: string) {
    var d := Lower(TrimSpace(domain));
    d != "" && Bytes(d) <= 253 && d[0] != '.' && d[|d| - 1] != '.' && '/' !in d
  }

  predicate ServerOk(server: string) {
    ParseAddress(TrimSpace(server)).Some?
  }

  predicate SplitDNSOk(domains: seq<string>, servers: seq<string>) {
    if domains == [] && servers == [] then true
    else
      && 1 <= |domains| <= 32 && 1 <= |servers| <= 8
      && (forall k :: 0 <= k < |domains| ==> DomainOk(domains[k]))
      && (forall k :: 0 <= k < |servers| ==> ServerOk(servers[k]))
  }

  /** The test of one route, as the program makes it. */
  predicate RouteAccepted(value: string) {
    var network := ParseCIDR(value);
    network.Some? && PrintPrefix(network.value) != PrintPrefix(Prefix(0, 0)) && PrintPrefix(network.value) == value
  }

  lemma {:induction false} RouteAcceptedIff(value: string)
    ensures RouteAccepted(value) <==> RouteOk(value)
  {
    CanonicalText(value);
    if ParsePrefix(value).Some? && IsMasked(ParsePrefix(value).value) {
      var p := ParsePrefix(value).value;
      PrintParsePrefix(value);
      DefaultPrefix(p);
      if PrintPrefix(p) == PrintPrefix(Prefix(0, 0)) {
        PrefixTextUnique(p, Prefix(0, 0));
      }
    }
  }

  lemma {:induction false} DefaultPrefix(p: Prefix)
    requires IsMasked(p)
    ensures p == Prefix(0, 0) <==> p.bits == 0
  {
    if p.bits == 0 {
      AndNothing(p.addr);
    }
  }

  lemma {:induction false} AndNothing(a: nat)
    ensures And(a, 0) == 0
  {
    if a > 0 {
      AndNothing(a / 2);
    }
  }

  /** The list is accepted exactly when it has 1 to 64 canonical routes, none of
      them the default route, that are pairwise distinct. */
  method ValidateRoutes(routes: seq<string>, domains: seq<string>, servers: seq<string>) returns (r: Result<(), RouteError>)
    ensures r.Ok? <==> RoutesOk(routes) && SplitDNSOk(domains, servers)
    ensures r.Err? ==>
              match r.problem
              case NoRoutes => routes == []
              case TooMany => |routes| > 64
              case BadRoute(text) => 1 <= |routes| <= 64 && exists k :: 0 <= k < |routes| && routes[k] == text && BadAt(routes, k)
              case BadSplitDNS => RoutesOk(routes) && !SplitDNSOk(domains, servers)
              case DefaultRoute => false
  {
    if |routes| == 0 || |routes| > 64 {
      return Err(if routes == [] then NoRoutes else TooMany);
    }
    var bad := FirstBad(routes, RouteAccepted);
    AllAcceptedIff(routes);
    if bad < |routes| {
      RouteAcceptedIff(routes[bad]);
      assert BadAt(routes, bad);
      return Err(BadRoute(routes[bad]));
    }
    var dns := ValidateSplitDNS(domains, servers);
    return if dns then Ok(()) else Err(BadSplitDNS);
  }

  /** Not an acceptable route, or not the first time it is listed. */
  predicate BadAt(routes: seq<string>, k: nat)
    requires k < |routes|
  {
    !RouteOk(routes[k]) || routes[k] in routes[..k]
  }

  predicate All(routes: seq<string>, accepted: string -> bool) {
    forall k :: 0 <= k < |routes| ==> accepted(routes[k])
  }

  lemma {:induction false} AllAcceptedIff(routes: seq<string>)
    ensures RoutesOk(routes) <==> 1 <= |routes| <= 64 && All(routes, RouteAccepted) && Distinct(routes)
  {
    forall k | 0 <= k < |routes|
      ensures RouteAccepted(routes[k]) <==> RouteOk(routes[k])
    {
      RouteAcceptedIff(routes[k]);
    }
  }

  /** The loop of validateRoutes: the first entry refused or repeated. */
  method FirstBad(routes: seq<string>, accepted: string -> bool) returns (bad: nat)
    ensures bad <= |routes| && (bad == |routes| <==> All(routes, accepted) && Distinct(routes))
    ensures bad < |routes| ==> !accepted(routes[bad]) || routes[bad] in routes[..bad]
  {
    var seen: set<string> := {};
    bad := 0;
    while bad < |routes|
      invariant bad <= |routes| && Distinct(routes[..bad]) && All(routes[..bad], accepted)
      invariant forall value :: value in seen <==> value in routes[..bad]
    {
      var value := routes[bad];
      if !accepted(value) || value in seen {
        return;
      }
      assert routes[..bad + 1] == routes[..bad] + [value];
      seen := seen + {value};
      bad := bad + 1;
    }
    assert routes[..bad] == routes;
  }

  method ValidateSplitDNS(domains: seq<string>, servers: seq<string>) returns (ok: bool)
    ensures ok <==> SplitDNSOk(domains, servers)
  {
    if |domains| == 0 && |servers| == 0 {
      return true;
    }
    if |domains| == 0 || |servers| == 0 || |domains| > 32 || |servers| > 8 {
      return false;
    }
    for k := 0 to |domains|
      invariant forall i :: 0 <= i < k ==> DomainOk(domains[i])
    {
      if !DomainOk(domains[k]) {
        return false;
      }
    }
    for k := 0 to |servers|
      invariant forall i :: 0 <= i < k ==> ServerOk(servers[i])
    {
      if !ServerOk(servers[k]) {
        return false;
      }
    }
    return true;
  }

  /** The request that is accepted, in terms of networks: 1 to 64 distinct texts,
      each the printed form of a masked network of at least one bit; and no split
      DNS at all, or 1 to 32 domains with 1 to 8 server addresses. */
  lemma {:induction false} RequestWritten(routes: seq<string>, domains: seq<string>, servers: seq<string>)
    ensures RoutesOk(routes) <==>
              && 0 < |routes| < 65
              && (forall k :: 0 <= k < |routes| ==> NetworkText(routes[k]))
              && (forall i, j :: 0 <= i < j < |routes| ==> routes[i] != routes[j])
    ensures SplitDNSOk(domains, servers) <==>
              || (domains == [] && servers == [])
              || (&& 0 < |domains| < 33 && 0 < |servers| < 9
                  && (forall k :: 0 <= k < |servers| ==> ParseAddress(TrimSpace(servers[k])).Some?)
                  && (forall k :: 0 <= k < |domains| ==>
                        var d := Lower(TrimSpace(domains[k]));
                        d != "" && Bytes(d) < 254 && d[0] != '.' && d[|d| - 1] != '.' && forall i :: 0 <= i < |d| ==> d[i] != '/'))
  {
    hide RouteOk, NetworkText, TrimSpace, Lower, Bytes, ParseAddress;
    forall k | 0 <= k < |routes|
      ensures RouteOk(routes[k]) <==> NetworkText(routes[k])
    {
      RouteWritten(routes[k]);
    }
  }

  /** The printed form of a masked network of at least one bit. */
  ghost predicate NetworkText(text: string) {
    exists p: Prefix :: p == Masked(p) && p.bits >= 1 && text == PrintPrefix(p)
  }

  lemma {:induction false} RouteWritten(text: string)
    ensures RouteOk(text) <==> NetworkText(text)
  {
    hide PrintPrefix, ParsePrefix, Masked;
    if RouteOk(text) {
      var p := ParsePrefix(text).value;
      PrintParsePrefix(text);
      assert p == Masked(p);
    }
    if p: Prefix :| p == Masked(p) && p.bits >= 1 && text == PrintPrefix(p) {
      ParsePrintPrefix(p);
    }
  }

  /** Accepted routes are distinct as networks, not only as texts. */
  lemma {:induction false} DistinctNetworks(routes: seq<string>, i: nat, j: nat)
    requires RoutesOk(routes) && i < j < |routes|
    ensures Masked(ParsePrefix(routes[i]).value) != Masked(ParsePrefix(routes[j]).value)
  {
    PrintParsePrefix(routes[i]);
    PrintParsePrefix(routes[j]);
  }

  // ---- withDNSServerRoutes ----

  function HostRoute(server: string): string {
    TrimSpace(server) + "/32"
  }

  function AddServers(routes: seq<string>, servers: seq<string>): (out: seq<string>)
    ensures routes <= out
  {
    if servers == [] then routes else
    var n := |servers| - 1;
    var out := AddServers(routes, servers[..n]);
    if TrimSpace(servers[n]) == "" || HostRoute(servers[n]) in out then out else out + [HostRoute(servers[n])]
  }

  method WithDNSServerRoutes(routes: seq<string>, servers: seq<string>) returns (out: seq<string>)
    ensures out == AddServers(routes, servers)
  {
    if |servers| == 0 {
      return routes;
    }
    out := routes;
    var seen := set route | route in out;
    var next := 0;
    while next < |servers|
      invariant 0 <= next <= |servers|
      invariant out == AddServers(routes, servers[..next])
      invariant seen == set route | route in out
    {
      assert servers[..next + 1][..next] == servers[..next];
      var server := TrimSpace(servers[next]);
      next := next + 1;
      if server == "" {
        continue;
      }
      var cidr := server + "/32";
      if cidr !in seen {
        out := out + [cidr];
        seen := seen + {cidr};
      }
    }
    assert servers[..|servers|] == servers;
  }

  predicate Asks(servers: seq<string>, k: nat, route: string) {
    k < |servers| && TrimSpace(servers[k]) != "" && TrimSpace(servers[k]) + "/32" == route
  }

  /** Every server gets its host route. */
  lemma {:induction false} ServersRouted(routes: seq<string>, servers: seq<string>, k: nat, route: string)
    requires Asks(servers, k, route)
    ensures route in AddServers(routes, servers)
  {
    var n := |servers| - 1;
    if k < n {
      assert Asks(servers[..n], k, route);
      ServersRouted(routes, servers[..n], k, route);
    }
  }

  /** No other route is added. */
  lemma {:induction false} OnlyServersAdded(routes: seq<string>, servers: seq<string>, route: string)
    requires route in AddServers(routes, servers) && route !in routes
    ensures exists k: nat :: Asks(servers, k, route)
  {
    var n := |servers| - 1;
    if route in AddServers(routes, servers[..n]) {
      OnlyServersAdded(routes, servers[..n], route);
      var k: nat :| Asks(servers[..n], k, route);
      assert Asks(servers, k, route);
    } else {
      assert Asks(servers, n, route);
    }
  }

  /** No route is added twice, or when it was there before. */
  lemma {:induction false} ServersDistinct(routes: seq<string>, servers: seq<string>)
    ensures Distinct(AddServers(routes, servers)) <==> Distinct(routes)
  {
    if servers != [] {
      ServersDistinct(routes, servers[..|servers| - 1]);
    }
  }

  lemma {:induction false} HostPrefix(a: Address)
    ensures IsMasked(Prefix(a, 32)) && RouteOk(PrintPrefix(Prefix(a, 32)))
  {
    MaskClears(a, 32);
    ParsePrintPrefix(Prefix(a, 32));
  }

  lemma {:induction false} HostText(a: Address, bits: string)
    requires bits == Decimal(32)
    ensures PrintAddress(a) + ("/" + bits) == PrintPrefix(Prefix(a, 32))
  {
    JoinTwo(PrintAddress(a), bits, '/');
  }

  lemma {:induction false} ThirtyTwo()
    ensures Decimal(32) == "32"
  {
  }

  lemma {:induction false} HostRouteOk(server: string)
    requires ServerOk(server)
    ensures RouteOk(HostRoute(server))
  {
    var s := TrimSpace(server);
    var a := ParseAddress(s).value;
    var bits := "32";
    ThirtyTwo();
    PrintParseAddress(s);
    HostText(a, bits);
    HostPrefix(a);
    assert "/" + bits == "/32";
  }

  /** Adding the servers of an accepted request keeps its routes acceptable, but
      for their number. */
  lemma {:induction false} ServersAccepted(routes: seq<string>, domains: seq<string>, servers: seq<string>)
    requires RoutesOk(routes) && SplitDNSOk(domains, servers)
    ensures RoutesOk(AddServers(routes, servers)) <==> |AddServers(routes, servers)| <= 64
  {
    var out := AddServers(routes, servers);
    ServersDistinct(routes, servers);
    forall i | 0 <= i < |out|
      ensures RouteOk(out[i])
    {
      if out[i] !in routes {
        OnlyServersAdded(routes, servers, out[i]);
        var k: nat :| Asks(servers, k, out[i]);
        HostRouteOk(servers[k]);
      }
    }
  }

  // ---- NetworkAndMask ----

  predicate Routable(cidr: string) {
    ParsePrefix(TrimSpace(cidr)).Some? && ParsePrefix(TrimSpace(cidr)).value.bits > 0
  }

  method NetworkAndMask(cidr: string) returns (r: Result<(string, string), RouteError>)
    ensures r.Ok? <==> ParsePrefix(TrimSpace(cidr)).Some? && ParsePrefix(TrimSpace(cidr)).value.bits >= 1
    ensures r.Ok? <==> Routable(cidr)
    ensures r.Err? ==> r.problem == if ParsePrefix(TrimSpace(cidr)).None? then BadRoute(cidr) else DefaultRoute
    ensures r.Ok? ==>
              var p := ParsePrefix(TrimSpace(cidr)).value;
              && ParseAddress(r.value.0) == Some(Masked(p).addr)
              && ParseAddress(r.value.1) == Some(Mask(p.bits))
  {
    var parsed := ParsePrefix(TrimSpace(cidr));
    if parsed.None? {
      return Err(BadRoute(cidr));
    }
    var prefix := Masked(parsed.value);
    if prefix.bits == 0 {
      return Err(DefaultRoute);
    }
    var mask := MaskText(prefix.bits);
    ParsePrintAddress(prefix.addr);
    return Ok((PrintAddress(prefix.addr), mask));
  }

  /** The mask of NetworkAndMask, byte by byte. */
  method MaskText(ones: Bits) returns (mask: string)
    ensures ParseAddress(mask) == Some(Mask(ones))
  {
    var maskValue: Address := 0;
    if ones != 0 {
      maskValue := Up(WORD - 1, 32 - ones) % WORD;
    }
    mask := DottedBytes(Down(maskValue, 24) % 256, Down(maskValue, 16) % 256, Down(maskValue, 8) % 256, maskValue % 256);
    DottedIsAddress(maskValue);
    ParsePrintAddress(maskValue);
  }

  function DottedBytes(a: Byte, b: Byte, c: Byte, d: Byte): string {
    Decimal(a) + "." + Decimal(b) + "." + Decimal(c) + "." + Decimal(d)
  }

  lemma {:induction false} DottedIsAddress(a: Address)
    ensures DottedBytes(Octet(a, 0), Octet(a, 1), Octet(a, 2), Octet(a, 3)) == PrintAddress(a)
  {
    JoinFour(Decimal(Octet(a, 0)), Decimal(Octet(a, 1)), Decimal(Octet(a, 2)), Decimal(Octet(a, 3)));
  }

  lemma {:induction false} JoinFour(a: string, b: string, c: string, d: string)
    ensures Join([a, b, c, d], '.') == a + "." + b + "." + c + "." + d
  {
    var abcd, bcd := [a, b, c, d], [b, c, d];
    assert abcd[1..] == bcd && bcd[1..] == [c, d];
    JoinTwo(c, d, '.');
    assert Join(bcd, '.') == b + ['.'] + Join([c, d], '.');
    assert Join(abcd, '.') == a + ['.'] + Join(bcd, '.');
    assert a + ['.'] + (b + ['.'] + (c + ['.'] + d)) == a + "." + b + "." + c + "." + d;
  }

  /** The printed pair selects exactly the block of addresses of the network:
      `ip & mask` is the network just when `ip` lies in the block, which is just
      when the prefix contains it. */
  lemma {:induction false} PairSelects(cidr: string, network: string, mask: string, ip: Address)
    requires Routable(cidr)
    requires ParseAddress(network) == Some(Masked(ParsePrefix(TrimSpace(cidr)).value).addr)
    requires ParseAddress(mask) == Some(Mask(ParsePrefix(TrimSpace(cidr)).value.bits))
    ensures And(ip, ParseAddress(mask).value) == ParseAddress(network).value
            <==> ParseAddress(network).value <= ip < ParseAddress(network).value + Pow2(32 - ParsePrefix(TrimSpace(cidr)).value.bits)
    ensures And(ip, ParseAddress(mask).value) == ParseAddress(network).value
            <==> Contains(ParsePrefix(TrimSpace(cidr)).value, ip)
  {
    BlockOf(ParsePrefix(TrimSpace(cidr)).value, ip);
  }

  lemma {:induction false} BlockOf(p: Prefix, ip: Address)
    ensures And(ip, Mask(p.bits)) == Masked(p).addr <==> Masked(p).addr <= ip < Masked(p).addr + Pow2(32 - p.bits)
  {
    MaskedIsMasked(p);
    MaskedContains(p, ip);
    ContainsBlock(Masked(p), ip);
  }
}
