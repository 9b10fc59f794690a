/** The records of the native engine: mutations, transactions and plans
    (vpntoris-tray/internal/nativeengine/types.go).  The time stamp that only
    `List` reads is kept as a number. */
module EngineTypes {

  datatype MutationKind = Interface | Route | Dns | Process | OtherKind(name: string)

  datatype MutationState = Pending | Applied | Undone | Failed

  datatype Mutation = Mutation(
    id: string,
    kind: MutationKind,
    state: MutationState,
    resource: string,
    iface: string,
    cidr: string,
    domain: string,
    pid: int,
    servers: string,
    error: string)

  datatype TransactionState = Preparing | Active | RollingBack | Broken

  /** A transaction as `saveLocked` writes it and `loadLocked` reads it back. */
  datatype Record = Record(
    version: int,
    id: string,
    owner: string,
    profile: string,
    platform: string,
    createdAt: nat,
    state: TransactionState,
    mutations: seq<Mutation>)

  datatype Plan = Plan(profile: string, mutations: seq<Mutation>)

  /** A mutation that rollback still has to attempt. */
  predicate Live(m: Mutation) {
    m.state == Pending || m.state == Applied || m.state == Failed
  }

  predicate AllApplied(ms: seq<Mutation>) {
    forall j :: 0 <= j < |ms| ==> ms[j].state == Applied
  }

  predicate NoneLive(ms: seq<Mutation>, from: nat) {
    forall j :: from <= j < |ms| ==> !Live(ms[j])
  }

  /** Everything about a mutation that the engine never rewrites. */
  predicate SameTarget(m: Mutation, p: Mutation) {
    m == p.(id := m.id, state := m.state, error := m.error) && (p.id != "" ==> m.id == p.id)
  }

  /** The names under which a plan lists a route and a domain. */
  function RouteResource(iface: string, cidr: string): string {
    "route:" + iface + ":" + cidr
  }

  function DomainResource(domain: string): string {
    "dns:" + domain
  }
}
