/** What stands in a plan, written out field by field, and which settings have
    one: the requirements of plan.go without the terms it is computed with. */
module PlanContents {
  import opened Wrappers
  import opened EngineTypes
  import opened Text
  import opened IPv4
  import opened IPText
  import opened Routes
  import opened NetworkPlan
  import opened MutationBackends

  /** The part of a domain between two dots. */
  predicate Label(part: string) {
    && 1 <= |part| && Bytes(part) <= 63
    && (forall i :: 0 <= i < |part| ==> 'a' <= part[i] <= 'z' || '0' <= part[i] <= '9' || (part[i] == '-' && 0 < i < |part| - 1))
  }

  lemma {:induction false} LabelWritten(part: string)
    ensures LabelOk(part) <==> Label(part)
  {
    if Label(part) {
      assert part[0] != '-' && part[|part| - 1] != '-';
    }
  }

  lemma {:induction false} DomainWritten(domain: string)
    ensures DomainName(domain) <==> Bytes(domain) <= 253 && forall part :: part in Split(domain, {'.'}) ==> Label(part)
  {
    hide LabelOk, Label;
    var parts := Split(domain, {'.'});
    forall part
      ensures LabelOk(part) <==> Label(part)
    {
      LabelWritten(part);
    }
    if forall part :: part in parts ==> Label(part) {
      forall k | 0 <= k < |parts|
        ensures LabelOk(parts[k])
      {
        assert parts[k] in parts;
      }
    }
  }

  /** The settings that have a plan: complete, with at least one route, each an
      IPv4 network that is not the default route, each server an IPv4 address,
      each domain well formed in lower case, and no domain without a server. */
  lemma {:induction false} PlannableWritten(n: ProfileNetwork)
    ensures Plannable(n)
            <==> && n.profile != "" && n.iface != "" && n.processID > 0 && |n.routes| > 0
                 && (forall k :: 0 <= k < |n.routes| ==>
                       ParsePrefix(TrimSpace(n.routes[k])).Some? && 1 <= ParsePrefix(TrimSpace(n.routes[k])).value.bits)
                 && (forall k :: 0 <= k < |n.dnsServers| ==> ParseAddress(TrimSpace(n.dnsServers[k])).Some?)
                 && (forall k :: 0 <= k < |n.domains| ==> DomainName(Lower(TrimSpace(n.domains[k]))))
                 && (|n.domains| > 0 ==> |n.dnsServers| > 0)
  {
    hide ParsePrefix, ParseAddress, TrimSpace, Lower, DomainName, Masked;
  }

  /** The plan of a profile, mutation by mutation: the process, the interface,
      the networks that the routes denote, more specific ones first, and the
      domains in their order, each with all servers of the profile in the form
      in which the backend reads them back. */
  lemma {:induction false} PlanWritten(n: ProfileNetwork, plan: Plan) returns (ps: seq<Prefix>)
    requires IsPlan(n, plan)
    ensures plan.profile == n.profile && |plan.mutations| == 2 + |ps| + |n.domains|
    ensures plan.mutations[0]
              == Mutation("", Process, Pending, "process:" + Decimal(n.processID), "", "", "", n.processID, "", "")
    ensures plan.mutations[1] == Mutation("", Interface, Pending, "interface:" + n.iface, n.iface, "", "", 0, "", "")
    ensures forall k :: 0 <= k < |ps| ==>
              plan.mutations[2 + k]
                == Mutation("", Route, Pending, "route:" + n.iface + ":" + PrintPrefix(ps[k]), n.iface, PrintPrefix(ps[k]), "", 0, "", "")
    ensures forall p :: p in ps <==>
              exists k :: 0 <= k < |n.routes| && ParsePrefix(TrimSpace(n.routes[k])).Some?
                          && p == Masked(ParsePrefix(TrimSpace(n.routes[k])).value)
    ensures forall i, j :: 0 <= i < j < |ps| ==> ps[i].bits > ps[j].bits || (ps[i].bits == ps[j].bits && ps[i].addr < ps[j].addr)
    ensures forall k :: 0 <= k < |n.domains| ==>
              var m := plan.mutations[2 + |ps| + k];
              && m == Mutation("", Dns, Pending, "dns:" + Lower(TrimSpace(n.domains[k])), n.iface, "",
                               Lower(TrimSpace(n.domains[k])), 0, m.servers, "")
              && SplitCSV(m.servers) == TrimAll(n.dnsServers)
  {
    hide PrintPrefix, ParsePrefix, ParseAddress, TrimSpace, Lower, Masked, SplitCSV, DomainName;
    var servers := Join(TrimAll(n.dnsServers), ',');
    ps :| Canonical(ps, n.routes) && plan == PlanOf(n, ps, servers);
    forall k | 0 <= k < |plan.mutations|
      ensures plan.mutations[k]
                == if k < 2 then FixedMutations(n.iface, n.processID)[k]
                   else if k < 2 + |ps| then RouteMutation(n.iface, ps[k - 2])
                   else DomainMutation(n.iface, Lower(TrimSpace(n.domains[k - 2 - |ps|])), servers)
    {
      MutationAt(n, ps, servers, k);
    }
    forall p
      ensures p in ps <==> exists k :: 0 <= k < |n.routes| && ParsePrefix(TrimSpace(n.routes[k])).Some?
                                       && p == Masked(ParsePrefix(TrimSpace(n.routes[k])).value)
    {
      DenotesWritten(n.routes, p);
    }
    if n.domains != [] {
      ServersReadBack(n.dnsServers);
    }
  }

  lemma {:induction false} DenotesWritten(routes: seq<string>, p: Prefix)
    requires RoutesPlannable(routes)
    ensures Denotes(routes, p)
            <==> exists k :: 0 <= k < |routes| && ParsePrefix(TrimSpace(routes[k])).Some?
                             && p == Masked(ParsePrefix(TrimSpace(routes[k])).value)
  {
    hide ParsePrefix, TrimSpace, Masked;
    if Denotes(routes, p) {
      var k :| 0 <= k < |routes| && Denoted(routes[k]) == Ok(p);
      assert ParsePrefix(TrimSpace(routes[k])).Some?;
    }
    if k :| 0 <= k < |routes| && ParsePrefix(TrimSpace(routes[k])).Some? && p == Masked(ParsePrefix(TrimSpace(routes[k])).value) {
      assert Denoted(routes[k]).Ok?;
    }
  }
}
