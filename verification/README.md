# VPNToris: a model of the network engine, the helper and its text transforms

This project models the parts of VPNToris that decide what happens to the
machine's routes and DNS settings, and proves what they promise.

* **The transaction engine.** `nativeengine.Manager` journals every mutation
  before it applies it, rolls back in reverse order, and replays the rollback
  over whatever a crash left behind. `wal_machine.dfy` has one transaction as a
  machine whose events are the single calls of Save, Apply, Owned, Undo and
  Remove with their outcomes, and the system as any interleaving of such
  machines with crashes and recoveries. A save can fail before its rename, or
  after it (the directory sync). `wal_safety.dfy`, `wal_runs.dfy`,
  `wal_journaling.dfy`, `wal_sharing.dfy` and `wal_recovery.dfy` prove what all
  runs keep, `wal_progress.dfy` that a transaction can always go on.
  `manager.dfy` has the journal and the manager as objects with the program's
  loops. Every call to the journal or the backend records itself in a trace, and
  the contracts say that what a method adds to the trace is a run of the machine;
  where a method can fail, its contract names when it does.
* **The helper's sessions.** `session_machine.dfy` adds the service lock, the
  sessions map and one program counter per monitor goroutine, on top of the
  engine; a Deactivate inside a critical section interleaves with every
  Activate, and the helper can die at any moment and recover. `session_safety.dfy`,
  `session_runs.dfy`, `session_progress.dfy`, `session_verdict.dfy`,
  `session_connected.dfy` and `session_race.dfy` prove the results; `service.dfy` has the critical sections
  as methods on session objects.
* **Routes.** `ipv4.dfy` (mask arithmetic), `ip_text.dfy` (dotted text),
  `routes.dfy` (route lists), `plan.dfy` and `plan_contents.dfy` (the mutation
  plan and what stands in it), `route_match.dfy`
  (longest-prefix choice in three places), `net_backend.dfy`,
  `mutation_backend.dfy` and `engine_backend.dfy` (routers, the backend the
  engine drives, and that it meets the contract the engine relies on).
* **OpenVPN text.** `block_scan.dfy` and `sanitize.dfy` (the sanitizer),
  `remote_override.dfy`, `credentials.dfy`, `challenge.dfy` and
  `challenge_answer.dfy`.

`wrappers.dfy`, `text.dfy`, `sorting.dfy` and `engine_types.dfy` hold shared
definitions. `dafny verify dfyconfig.toml` verifies everything within Dafny's
default time limit. Lemmas whose name ends in `Written` say what a specification
function or rule amounts to without the terms it is defined by. Automatic induction is switched off for every lemma, so that a
proof is what its body says, and proofs `hide` the functions they do not unfold.

Assumptions about the environment: a backend whose `Owned` denies a resource
does not hold it, whose `Undo` returns nil has removed it, and whose failed
`Apply` may or may not have left it; the routers meet this when a delete command
only fails for an absent route (`RouteSystem.reliable`), because their `Undo`
ignores the outcome of the command. A route command that reports an error
changed nothing. Random identifiers are new. `Recover` does not overlap
`Activate`.

Five places where the code does less than one might expect are stated exactly.
Of the transactions that a connected session began, one is in force if and only
if the session still has it and no section is releasing it
(`SessionConnected.ConnectedMeans`); a resource of its plan is in place under the
same condition unless another transaction has it live at the same time or it was
deleted outside the engine (`SessionConnected.ConnectedInPlace`; connecting again
after a clean release is covered, `SessionConnected.ReconnectedInPlace`).
Transactions can share names, since a domain is named without its profile or
interface; whenever two established ones do, the release of one takes the resource
from the other (`WalSharing.ContestedCanBeLost`, and `WalSharing.ContestedLost` for
a whole plan). Stop can land just before the monitor marks the session, and then a
session is shown as connected whose route is gone; the run is given for every plan
(`SessionRace.StopBeforeMark`, `SessionRace.ProfileRace`).
A failed or undone `AddRoutes` restores the routing table if and only if none of
the routes it had added was there before (the contracts of `AddRoutes` and
`AddThenDelete` of both routers; on Linux `ip route replace` succeeds for a route
that is already there, and `NetBackend.PresentRouteLost` is such an input).
Password and one-time code can be told apart in the answer to a challenge if and
only if the challenge is static (`Challenge.RecoverableIff`). A credential line
reads back as three fields if and only if the value is not empty
(`Credentials.CredentialReadsBack`).

## Model

| member | source | states |
|---|---|---|
| WalSafety.WriteAheadSafety | vpntoris-tray/internal/nativeengine/manager.go:24-118 | In every state of every run, with interleaved transactions, failing calls and crashes anywhere, each resource in place is named by a journaled mutation that is not undone; a record in preparation has at most its last mutation in doubt, an active one none. |
| WalSafety.JournaledBeforeApply | vpntoris-tray/internal/nativeengine/manager.go:37-42 | Whenever Apply is called, the record on disk already ends with that mutation as pending, and it is the next one of the plan. |
| WalSafety.FireSafe | vpntoris-tray/internal/nativeengine/manager.go:24-118 | Every single call with any outcome keeps the write-ahead property and the invariant of the transaction's program point. |
| WalSafety.FireFrames | vpntoris-tray/internal/nativeengine/manager.go:24-118 | A call of one transaction does not disturb another, even when both name the same resource. |
| WalSafety.ServingStartsClean | vpntoris-tray/internal/nativehelper/service.go:111-136 | Whenever Recover lets the helper serve, after any number of crashes including crashes inside Recover, the journal is empty and nothing is in place. |
| WalRuns.ActivateAllOrNothing | vpntoris-tray/internal/nativeengine/manager.go:24-58 | Success adds exactly the plan's resources and records all mutations as applied; a clean failure leaves nothing that was attempted, touches nothing else and leaves no journal file. |
| WalRuns.RollbackOrderAndCoverage | vpntoris-tray/internal/nativeengine/manager.go:78-118 | Owned is asked once for each live mutation, last to first, also after failures; Undo is called exactly for the confirmed ones in that order; a mutation becomes undone iff its own calls did not fail, and otherwise keeps its state with the message of its Undo; Remove is called iff none failed, and otherwise the record says that the transaction failed; the error is reported iff a call failed. |
| WalJournaling.SavedAtOnce | vpntoris-tray/internal/nativeengine/manager.go:42-113 | The result of every Apply, of every successful Undo and of every denial is in the record when the next call is made, which is the save of this record; no transaction rests before it. |
| WalJournaling.MarkedFirst | vpntoris-tray/internal/nativeengine/manager.go:78-80 | A rollback first marks the record as rolling back and saves it, before anything is undone, and goes on whatever the save does. |
| WalRuns.SoloIsRun | vpntoris-tray/internal/nativeengine/manager.go:24-118 | A run of one transaction by itself is a run of the whole system, serving or recovering, so the results about runs hold of single calls of the manager. |
| WalSharing.EstablishedInPlace | vpntoris-tray/internal/nativeengine/manager.go:24-58 | In every interleaved run an established transaction has each tracked resource of its plan in place on its behalf, unless at some moment another transaction had a live mutation for it too, or it was deleted outside the engine. |
| WalSharing.StepKeepsPlace | vpntoris-tray/internal/nativeengine/manager.go:24-118 | No step of any transaction takes away what another one, not being rolled back, applied to a resource that nobody else has live. |
| WalSharing.SuccessorUncontested | vpntoris-tray/internal/nativeengine/manager.go:24-118 | When every other transaction that names a resource had undone what it did about it before, nobody contests it in between, whatever runs. |
| WalSharing.ContestedCanBeLost | vpntoris-tray/internal/nativeengine/manager.go:78-118 | In every reachable state in which two established transactions name a resource, the one can be released so that the resource is gone while the other stays established. |
| WalSharing.ContestedLost | vpntoris-tray/internal/nativeengine/manager.go:78-118 | For every plan, a run in which a second transaction with the same resources comes and goes, and the first one stays established with nothing in place. |
| WalProgress.CanRest | vpntoris-tray/internal/nativeengine/manager.go:24-118 | Wherever the code of a transaction stands, its own calls can take it to where Activate or the rollback returns; straight code ends established. |
| WalRecovery.PassIsRun | vpntoris-tray/internal/nativeengine/manager.go:65-77 | A recovery pass is a run of the recovering system, and after one without a failed Owned, Undo or Remove the helper may serve. |
| WalRecovery.RecoverConverges | vpntoris-tray/internal/nativeengine/manager.go:65-118 | A recovery pass keeps the write-ahead property, brings nothing back, leaves at most one file per failed call, and without a failed Owned, Undo or Remove leaves nothing, whatever its saves do. |
| WalRecovery.RepeatedRecoveryTerminates | vpntoris-tray/internal/nativeengine/manager.go:65-118 | With N failures in all, N + 1 passes empty the journal and the network. |
| Engine.Journal.Save | vpntoris-tray/internal/nativeengine/journal.go:52-97 | For a valid record the file is replaced by the snapshot, or an error before the rename leaves it, or the rename took effect and an error is still reported; an invalid record always fails and is never written. |
| Engine.Journal.AcceptsWritten | vpntoris-tray/internal/nativeengine/journal.go:153-158 | Which records are valid, by version, owner, profile, platform and the characters of the identifier. |
| Engine.Journal.Begin | vpntoris-tray/internal/nativeengine/journal.go:37-51 | Begin succeeds just when the profile is proper, an identifier was drawn that makes a valid record, and the save succeeds; a failure leaves the journal as it was, or with the one empty record if the rename took effect. |
| Engine.Journal.SavableWritten | vpntoris-tray/internal/nativeengine/journal.go:38-47 | The profile is proper when it has 1 to 160 bytes. |
| Engine.Journal.List | vpntoris-tray/internal/nativeengine/journal.go:106-126 | All files, each once, oldest first; the call fails just when the directory cannot be read or one of the files is invalid. |
| Engine.Journal.Remove | vpntoris-tray/internal/nativeengine/journal.go:127-138 | Succeeds just when the identifier is safe and the system removes the file or has none; then the file is gone, and no other changes. |
| Engine.Manager.Activate | vpntoris-tray/internal/nativeengine/manager.go:24-58 | There is a transaction just when Begin succeeds; then the calls made are a complete run of the machine from the blank record to success, or through a whole rollback, and success is reported for the former only; without a transaction no network call is made and nothing but an empty record may be left. |
| Engine.Manager.Deactivate | vpntoris-tray/internal/nativeengine/manager.go:59-64 | One complete rollback of the transaction. |
| Engine.Manager.Rollback | vpntoris-tray/internal/nativeengine/manager.go:78-118 | The calls made are a complete run of the machine from the start of a rollback to its end. |
| Engine.Manager.Recover | vpntoris-tray/internal/nativeengine/manager.go:65-77 | Unless the listing fails, one whole pass over all records: each is rolled back, oldest first, going on after errors, and the calls made are those rollbacks; a listing fails just for an unreadable journal or an invalid file, and then nothing happens; without an error the journal is empty and nothing is in place. |
| SessionSafety.ExactlyOnceRelease | vpntoris-tray/internal/nativehelper/service.go:386-407 | In every run at most one Activate of a session succeeds, finish runs at most once and only after the process exit, and when it has run the transaction has been deactivated exactly once, wherever Stop, Reset or a new Start fell. |
| SessionProgress.FinishCanRun | vpntoris-tray/internal/nativehelper/service.go:485-589 | From every state of every run in which the process of a session has exited, inside any section, Activate or rollback, the helper can go on, without dying, to where finish has run exactly once. |
| SessionProgress.LockOpens | vpntoris-tray/internal/nativehelper/service.go:386-456 | From every point of every critical section the lock can be freed again without the helper dying. |
| SessionProgress.CanWindDown | vpntoris-tray/internal/nativehelper/service.go:485-589 | From every serving state every monitor can come to its end, and then all that is left in the journal or in place belongs to transactions that had met a failed call before. |
| SessionSafety.DirectDeletionIsRedundant | vpntoris-tray/internal/nativehelper/service.go:445-456 | Routes are deleted outside the engine only for a session whose transaction was already deactivated. |
| SessionSafety.Conservation | vpntoris-tray/internal/nativehelper/service.go:445-518 | When every monitored session has finished, all that is left in the journal or in place belongs to transactions with a failed call; without failed calls there is nothing. |
| SessionSafety.EndedForGood | vpntoris-tray/internal/nativehelper/service.go:485-518 | A finished FortiGate or OpenConnect session is stopped or failed and holds no transaction, interface, input or log from then on, whatever Stop, Reset or SendOTP follows. |
| SessionVerdict.FinishVerdict | vpntoris-tray/internal/nativehelper/service.go:485-518 | In every run that ends with a session finished, there is the one run of finish on it, and the session came out of it as stopped exactly when it was stopped as finish took the lock, and as failed otherwise, whatever steps fell in between. |
| SessionVerdict.VerdictStays | vpntoris-tray/internal/nativehelper/service.go:386-407 | From then on a FortiGate or OpenConnect session that is shown as stopped stays so; a failed one stays failed or becomes stopped. |
| SessionRuns.PlayIsRun | vpntoris-tray/internal/nativehelper/service.go:340-589 | Under every run of the service, deaths of the helper included, the engine makes one of its own runs. |
| SessionRuns.DeathsLeaveNothing | vpntoris-tray/internal/nativehelper/service.go:111-136 | However often the helper died, also while it served sessions, when it serves again there is no session, no journal file and nothing in place. |
| SessionRuns.DeathKeepsNetwork | vpntoris-tray/internal/nativehelper/service.go:111-136 | A dying helper loses its sessions and nothing else; what is in place is still named by the journal. |
| SessionRuns.OnlyOwnRoutes | vpntoris-tray/internal/nativehelper/service.go:445-456 | Outside the engine only routes that a session without a transaction has on its own interface are ever deleted. |
| SessionRuns.DomainsUntouched | vpntoris-tray/internal/nativehelper/service.go:445-456 | In no run is a domain deleted outside the engine. |
| SessionConnected.ConnectedMeans | vpntoris-tray/internal/nativehelper/service.go:541-589 | A session shown as connected was established once; of the transactions it began, one is established, on disk as active and all applied, exactly while the session has it and no section is releasing it. |
| SessionConnected.ConnectedInPlace | vpntoris-tray/internal/nativehelper/service.go:541-589 | A resource of the plan that no other transaction has live at the same time and that is not deleted outside the engine is in place on behalf of a connected session exactly while the session has its transaction. |
| SessionConnected.ReconnectedInPlace | vpntoris-tray/internal/nativehelper/service.go:541-589 | The same for connecting again: it is enough that every other transaction of this life of the helper that names the resource had undone what it did about it. |
| SessionRace.StopBeforeMark | vpntoris-tray/internal/nativehelper/service.go:571-582 | For every plan, a run in which all of it is in place while the session has its transaction, and nothing of it when the session is shown as connected. |
| SessionRace.ProfileRace | vpntoris-tray/internal/nativehelper/service.go:457-484 | The same for the plan of any profile, with its first route in place before and gone afterwards. |
| SessionRace.CanDieConnected | vpntoris-tray/internal/nativehelper/service.go:541-589 | The helper can die with the route of a session in place. |
| SessionSafety.PlayKeepsInv | vpntoris-tray/internal/nativehelper/service.go:340-589 | Every step of every goroutine keeps the invariant that ties sessions, monitors and the lock to the engine's transactions. |
| SessionSafety.SectionComposes | vpntoris-tray/internal/nativehelper/service.go:421-456 | Entering and leaving a critical section, with engine steps in between, changes the session as the whole section does. |
| Service.Helper.ReleaseNetworkLocked | vpntoris-tray/internal/nativehelper/service.go:445-456 | A transaction is deactivated by one complete rollback and forgotten with the interface; without one a single deletion of the routes of the session on its interface is called, of which any may disappear and nothing else; nothing further about the session changes. |
| Service.Helper.StopLocked | vpntoris-tray/internal/nativehelper/service.go:421-444 | The session's network is released, its input and management closed, its state is stopped, and nothing else about it changes. |
| Service.Helper.Fail | vpntoris-tray/internal/nativehelper/service.go:519-525 | As stopping, with the state failed and the message kept. |
| Service.Helper.Finish | vpntoris-tray/internal/nativehelper/service.go:485-518 | Everything is released; a session that was stopped stays stopped with its message, any other ends failed with the error of the process. |
| Service.Helper.Start | vpntoris-tray/internal/nativehelper/service.go:156-339 | Accepted exactly when no session of the profile is there that is neither stopped nor failed, the process is launched and the credentials are handed over; then one new session stands for the profile, waiting for a code when one is needed; when only the credentials fail it stands there stopped, and otherwise nothing changes. |
| Service.Helper.SendOTP | vpntoris-tray/internal/nativehelper/service.go:340-385 | Accepted exactly for a connecting or waiting session whose input takes the code or, for OpenVPN, whose pending challenge is answered with the text sent; an answered challenge and its password are forgotten, and a refusal changes nothing. |
| Service.Helper.Stop | vpntoris-tray/internal/nativehelper/service.go:386-395 | The session of the profile goes through the stop section. |
| Service.Helper.Reset | vpntoris-tray/internal/nativehelper/service.go:396-407 | Each session once: those that are not stopped are released one after the other, each by one complete rollback of its transaction or a deletion of its routes, and the map is empty. |
| Service.Helper.ResetStops | vpntoris-tray/internal/nativehelper/service.go:396-407 | What a turn leaves of a session: stopped, without network, input or management, and otherwise as it was. |
| Service.Helper.ApplyNetwork | vpntoris-tray/internal/nativehelper/service.go:457-484 | It fails just when there is no plan, when Begin fails, or when the run of the engine ended in its rollback; otherwise that run ended established and the session has the very transaction. Without a run the network is untouched and the journal has at most an empty record more. |
| Service.Helper.SetUp | vpntoris-tray/internal/nativehelper/service.go:571-582 | Without interference the session ends up connected with its transaction and interface just when the engine established the plan, and failed with nothing otherwise. |
| Service.Helper.SetUpAllOrNothing | vpntoris-tray/internal/nativehelper/service.go:457-484 | The network then has all of the plan besides what it had, or after a clean rollback, when nothing of the plan was in place before, is as it was, journal included. |
| NetworkPlan.BuildNetworkPlan | vpntoris-tray/internal/nativeengine/plan.go:19-70 | Accepts exactly the complete settings with valid routes, servers and domains, and returns the plan in canonical form; an error names the first check that fails, and for routes the first bad one. |
| PlanContents.PlanWritten | vpntoris-tray/internal/nativeengine/plan.go:23-68 | The plan mutation by mutation: the process, the interface, one route for each network asked for with its name, text and interface, most specific first, and one DNS mutation for each domain in order, whose servers read back as all servers of the profile. |
| PlanContents.PlannableWritten | vpntoris-tray/internal/nativeengine/plan.go:20-65 | Which settings have a plan. |
| PlanContents.DomainWritten | vpntoris-tray/internal/nativeengine/plan.go:71-86 | Which domain names are valid, by their labels. |
| NetworkPlan.PlanCanonicalForm | vpntoris-tray/internal/nativeengine/plan.go:26-53 | Route lists that denote the same networks, in any order, repeated or with host bits, give the same plan. |
| NetworkPlan.PlanCoversExactly | vpntoris-tray/internal/nativeengine/plan.go:26-53 | The planned routes contain exactly the addresses of the routes asked for. |
| NetworkPlan.PlannedRoutes | vpntoris-tray/internal/nativeengine/plan.go:45-53 | No default route, every route canonical, and of two that overlap the more specific one comes first and lies inside the other. |
| NetworkPlan.AcceptedRoutesPlanned | vpntoris-tray/internal/nativeengine/plan.go:26-53 | The routes of an accepted request are planned one for one. |
| NetworkPlan.ValidDomainName | vpntoris-tray/internal/nativeengine/plan.go:71-86 | True exactly for at most 253 characters of well-formed labels; the tests for a dot at either end are implied. |
| IPv4.MaskIs | vpntoris-tray/internal/netbackend/cidr.go:18-25 | The shifted word is the number with that many leading ones. |
| IPv4.MaskClears | vpntoris-tray/internal/netbackend/cidr.go:14-25 | Conjunction with the mask clears the host part and nothing else. |
| IPv4.ContainsBlock | vpntoris-tray/internal/netbackend/cidr.go:14-25 | A masked prefix contains exactly the aligned block of addresses that starts at its own. |
| IPv4.Nested | vpntoris-tray/internal/nativeengine/plan.go:45-50 | Prefixes that share an address are nested. |
| IPText.PrintParseAddress | vpntoris-tray/internal/nativeengine/plan.go:55-61 | Text that reads as an address is the text that the address prints as. |
| IPText.ParsePrintPrefix | vpntoris-tray/internal/nativeengine/plan.go:28-53 | Printed prefixes read back. |
| IPText.PrintParsePrefix | vpntoris-tray/internal/nativeengine/plan.go:28-53 | Text that reads as a prefix is the text that the prefix prints as, so the texts seen identify the networks seen. |
| IPText.CanonicalText | vpntoris-tray/internal/fortihelper/request.go:246-248 | A text equals the text of its own network exactly when it is the text of a masked prefix; leading zeros in the length do not pass. |
| Routes.ParseRoutes | vpntoris-tray/main.go:359-377 | All networks in order with their masks, or the error for the first field that is no network, or for a text without fields. |
| Routes.ParsedRoutePrints | vpntoris-tray/main.go:367-375 | Every route read prints as the canonical text of its network, and its mask reads back. |
| Routes.PrintedRoutesReadBack | vpntoris-tray/main.go:359-377 | A printed list, joined with commas, semicolons or line feeds, reads as the same list. |
| Routes.OneField | vpntoris-tray/main.go:360-362 | Text without these three characters is one field. |
| Routes.ValidateRoutes | vpntoris-tray/internal/fortihelper/request.go:240-253 | Accepts exactly 1 to 64 distinct canonical routes without the default route, with proper split DNS settings; the error says which of these fails, and names a route that is not acceptable or was listed before. |
| Routes.ValidateSplitDNS | vpntoris-tray/internal/fortihelper/request.go:254-277 | Both lists empty, or 1 to 32 plausible domains with 1 to 8 IPv4 servers. |
| Routes.RequestWritten | vpntoris-tray/internal/fortihelper/request.go:240-277 | The accepted routes in terms of networks: each text is what a masked network of at least one bit prints as; and the limits on domains and servers. |
| Routes.DistinctNetworks | vpntoris-tray/internal/fortihelper/request.go:244-251 | Accepted routes differ as networks, not only as texts. |
| Routes.WithDNSServerRoutes | vpntoris-tray/native_common.go:16-37 | The routes with the missing host routes of the servers appended. |
| Routes.ServersRouted | vpntoris-tray/native_common.go:25-35 | Every server that is not blank has its /32 route. |
| Routes.OnlyServersAdded | vpntoris-tray/native_common.go:25-35 | Nothing but host routes of servers is added. |
| Routes.ServersDistinct | vpntoris-tray/native_common.go:20-35 | The result has a repetition exactly when the input had one. |
| Routes.ServersAccepted | vpntoris-tray/native_common.go:16-37 | The servers of an accepted request keep its routes acceptable exactly as long as there are no more than 64. |
| Routes.NetworkAndMask | vpntoris-tray/internal/netbackend/cidr.go:9-27 | Succeeds exactly for routable text, with texts that read back as the masked address and the mask. |
| Routes.PairSelects | vpntoris-tray/internal/netbackend/cidr.go:9-27 | For the printed pair, `ip & mask == network` exactly when the address lies in the block that starts at the network, which is when the prefix contains it. |
| RouteMatch.ProxyScript | vpntoris-tray/main.go:402-421 | The tests of the script are all routes of all mappings, by descending prefix length. |
| RouteMatch.LinesWritten | vpntoris-tray/main.go:403-412 | There is a test for each route of each mapping, sending it to the port of that mapping, and no other. |
| RouteMatch.ScriptWritten | vpntoris-tray/main.go:402-421 | Over routes read from text, the tests are those of masked networks in descending order. |
| RouteMatch.FindProxyLongest | vpntoris-tray/main.go:416-419 | The first test that succeeds is for a longest matching prefix, and none succeeds only when no prefix matches. |
| RouteMatch.BestRoute | vpntoris-tray/main.go:761-766 | The scan finds the first of the longest matches, or none when nothing matches. |
| RouteMatch.LongestPrefixAgreement | vpntoris-tray/main.go:416-419 | Over one set of routes the proxy script and the flow list choose the same network for every address. |
| RouteMatch.RouteCheck | vpntoris-tray/main.go:1255-1267 | The matches are exactly the configured routes that contain the target, by descending length, with the flag of the first two. |
| RouteMatch.MatchesWritten | vpntoris-tray/main.go:1255-1265 | A match is reported exactly for the routes of readable configurations whose network contains the target, under the name of their profile. |
| RouteMatch.ConflictIff | vpntoris-tray/main.go:1267-1267 | The conflict flag is set exactly when the longest matching network is configured at least twice. |
| Sorting.SortSlice | vpntoris-tray/main.go:1266-1266 | A sorted permutation, in no particular order among equals. |
| NetBackend.CommandRouter.AddRoutes | vpntoris-tray/internal/netbackend/command.go:16-38 | All routes added in order, or, from the first route that has no network or whose command is refused, the added ones deleted again in reverse; the commands given and the resulting table; after a failure it is restored exactly when nothing that had been added was there before, and all other entries are as before. |
| NetBackend.CommandRouter.DeleteRoutes | vpntoris-tray/internal/netbackend/command.go:39-47 | The commands in reverse order; with reliable commands all named routes are gone and no other. |
| NetBackend.CommandsWritten | vpntoris-tray/internal/netbackend/command.go:24-47 | Add commands come in the order of the list, delete commands in reverse. |
| NetBackend.CommandRouter.AddThenDelete | vpntoris-tray/internal/netbackend/command_test.go:10-41 | A list added and deleted again: the commands in order and in reverse, and the table is as before exactly when none of the routes was there before. |
| NetBackend.PresentRouteLost | vpntoris-tray/internal/netbackend/command.go:24-47 | A concrete list for which the table is not as before, neither after deletion nor after rollback. |
| NetBackend.SameEntries | vpntoris-tray/internal/netbackend/command.go:39-57 | A list that was added names the same entries when it is deleted. |
| NetBackend.WindowsRouter.AddRoutes | vpntoris-tray/internal/netbackend/router_windows.go:29-59 | As for the other router, on interface index, network and mask. |
| NetBackend.WindowsRouter.AddThenDelete | vpntoris-tray/internal/netbackend/router_windows.go:29-75 | As for the other router: the identity exactly when none of the routes was there before. |
| NetBackend.WindowsRouter.DeleteRoutes | vpntoris-tray/internal/netbackend/router_windows.go:60-75 | As for the other router; text without a network is passed over. |
| NetBackend.CommandKey | vpntoris-tray/internal/netbackend/router_windows.go:46-51 | What NetworkAndMask prints for a route is determined by its network. |
| NetBackend.WindowsKeyUnique | vpntoris-tray/internal/netbackend/router_windows.go:41-75 | A delete command names what the add command named: keys agree exactly for one network on one interface. |
| MutationBackends.MutationBackend.Apply | vpntoris-tray/internal/netbackend/mutation.go:15-45 | A route is one add command on its interface and fails just when there is none to give or it is refused; a domain is one call with the servers of the mutation and fails just when it cannot be made or it fails; interface and process succeed without a call. Success puts the mutation's resource in place, no call touches another one, a failed route leaves everything. |
| MutationBackends.MutationBackend.Undo | vpntoris-tray/internal/netbackend/mutation.go:46-66 | The one delete command or call that is made, and when it fails; with reliable deletions success means that the resource is gone; no other one changes. |
| MutationBackends.MutationBackend.Owned | vpntoris-tray/internal/netbackend/mutation.go:67-79 | Denied exactly for a mutation that names nothing it could have put in place. |
| MutationBackends.SplitValues | vpntoris-tray/internal/netbackend/mutation.go:80-90 | The trimmed parts that are not blank. |
| MutationBackends.ServersReadBack | vpntoris-tray/internal/netbackend/mutation.go:33-38 | The servers that a plan joins are those that Apply splits again. |
| MutationBackends.NamesArePlaces | vpntoris-tray/internal/nativeengine/plan.go:51-68 | Planned mutations have one resource name exactly when they put the same thing in place. |
| MutationBackends.ContractOnNames | vpntoris-tray/internal/nativeengine/plan.go:51-68 | Taking or giving up one place adds or removes one resource name and no other. |
| EngineBackends.Apply | vpntoris-tray/internal/netbackend/mutation.go:15-45 | What Apply returns is an event that the machine of the transaction takes, to a state that mirrors the backend: success places the resource, failure may or may not, nothing else moves. |
| EngineBackends.Undo | vpntoris-tray/internal/netbackend/mutation.go:46-66 | What Undo returns is an event that the machine takes, to a state that mirrors the backend, unless an unreliable deletion left the resource in place; nothing else moves. |
| EngineBackends.Owned | vpntoris-tray/internal/netbackend/mutation.go:67-79 | The answer is an event that the machine takes; a denial means that the resource is not in place. |
| MutationBackends.PlanWellNamed | vpntoris-tray/internal/nativeengine/plan.go:24-68 | Every mutation of a plan is so named, except process and interface, which put nothing in place. |
| BlockScan.ScanMeaning | vpntoris-tray/internal/openvpnconfig/sanitize.go:53-97 | The automaton gets through exactly when the lines read as directives and closed blocks without a refused one, and then it has kept exactly the lines that are not of dropped directives. |
| Sanitizer.Sanitize | vpntoris-tray/internal/openvpnconfig/sanitize.go:45-105 | The loop computes the verdict and the text of the automaton, which the following rows describe. |
| Sanitizer.AcceptedIff | vpntoris-tray/internal/openvpnconfig/sanitize.go:45-105 | Accepted exactly when the size is right and no directive or block outside a block body is refused. |
| Sanitizer.AcceptedWritten | vpntoris-tray/internal/openvpnconfig/sanitize.go:9-105 | Accepted exactly when the text has 1 byte to 1 MiB and no zero byte, every block is closed and one of seven named kinds, no directive has one of the twenty-two unsafe names, and no device is other than a tunnel. |
| Sanitizer.KeptWritten | vpntoris-tray/internal/openvpnconfig/sanitize.go:34-105 | The output reads as the same items without the directives of nine named kinds, and then the three fixed ones. |
| Sanitizer.KindWritten | vpntoris-tray/internal/openvpnconfig/sanitize.go:55-84 | Which lines are ignored, which open a block, which are directives, and which close a block. |
| Sanitizer.NameWritten | vpntoris-tray/internal/openvpnconfig/sanitize.go:85-85 | The name of a directive is its first word without any leading dashes, in lower case. |
| Sanitizer.MeaningPreserved | vpntoris-tray/internal/openvpnconfig/sanitize.go:53-105 | The output reads as the input without the removed directives and with the three fixed ones; block bodies are the same line for line. |
| Sanitizer.SanitizeAgain | vpntoris-tray/internal/openvpnconfig/sanitize.go:45-105 | The output is at most 45 bytes longer than the input and is accepted again exactly when it is within the size limit, with the same directives and blocks and one repeated auth-nocache. |
| RemoteOverride.OverrideOpenVPNRemote | vpntoris-tray/main.go:1558-1583 | The loop replaces the first remote line, drops the others and prepends one when there was none. |
| RemoteOverride.OverrideNamesGateway | vpntoris-tray/main.go:1558-1583 | Exactly one remote line is left, it names the gateway, and all other lines keep their order. |
| RemoteOverride.OverrideWritten | vpntoris-tray/main.go:1558-1583 | Line by line: only lines of at least two fields whose first is the word remote, in any case, are rewritten or dropped; all others are kept in order. |
| RemoteOverride.LastOverrideWins | vpntoris-tray/main.go:1558-1583 | A second override gives what it alone would have given. |
| Credentials.OpenVPNFields | vpntoris-tray/swift/VPNTorisApp.swift:585-605 | The lexer's loop; what it reads is described by the following rows. |
| Credentials.WordsReadBack | vpntoris-tray/swift/VPNTorisApp.swift:585-605 | Words without quotes and backslashes read back as themselves. |
| Credentials.QuotedAsItStands | vpntoris-tray/swift/VPNTorisApp.swift:593-597 | Between either kind of quote all but itself and the backslash stands for itself. |
| Credentials.BackslashAsItStands | vpntoris-tray/swift/VPNTorisApp.swift:590-602 | A backslash takes the next character as it stands; the last one of a line stands for itself. |
| Credentials.CredentialReadsBack | vpntoris-tray/internal/nativehelper/openvpn_auth.go:10-28 | The lexer reads a credential line back as its three fields, for every value that is not empty. |
| Credentials.TwoLines | vpntoris-tray/internal/nativehelper/openvpn_auth.go:10-13 | The text is exactly the two credential lines if and only if neither value contains a line feed. |
| Challenge.DecodeEncode | vpntoris-tray/internal/nativehelper/openvpn_auth.go:17-17 | The encoding reads back for all bytes. |
| Challenge.EncodeWritten | vpntoris-tray/internal/nativehelper/openvpn_auth.go:17-17 | Each letter stands for the next six bits of the bytes in the alphabet of section 4 of RFC 4648, and padding fills up to a multiple of four. |
| Challenge.StaticAnswerReadsBack | vpntoris-tray/internal/nativehelper/openvpn_auth.go:16-17 | The answer to a static challenge has three parts, the tag SCRV1 and the two encodings, and password and one-time code can be read off it. |
| Challenge.OtherAnswers | vpntoris-tray/internal/nativehelper/openvpn_auth.go:18-23 | The answer to a dynamic challenge takes apart into tag, state and code; the code is appended to the password for the third kind, and any other leaves the password. |
| ChallengeAnswer.StaticAnswerArrives | vpntoris-tray/internal/nativehelper/openvpn_auth.go:10-28 | Through encoding, escaping, the engine's lines and its lexer, the answer to a static challenge gives the server the very password and code; the lines are two exactly when the username has no line feed. |
| Challenge.RecoverableIff | vpntoris-tray/internal/nativehelper/openvpn_auth.go:14-24 | Only the static challenge keeps the two apart. |

## Left out

- Power loss: a rename whose directory sync failed is taken to survive a crash of the process, not of the machine.
- Recover running beside a live helper (the repair command): the write-ahead invariant assumes that it does not overlap Activate.
- The helper without a transaction manager, where a session adds and deletes routes through the router directly.
- Engine.Journal.Begin: assumes that the random identifier is not in use yet.
- Engine.Manager.Activate: assumes the same of its identifier; the context that is passed through is not modelled.
- Engine.Journal.Save: the JSON text, file modes, temporary files and the UpdatedAt stamp are left out; a record is written and read as a value.
- Engine.Journal.List: a directory or file that cannot be read or parsed is the parameter `readable`; List returns values, the program pointers.
- Service.Helper.Start: process, pipes, manifest and configuration files are one outcome each; the request checks other than routes and sanitizing are left out.
- Service.Helper.SendOTP: the IPsec branch; where the challenge comes from (the management goroutine) is left out.
- Service.Helper.ReleaseNetworkLocked: any of the routes may survive the direct deletion, whose commands can fail.
- SessionSafety.EndedForGood: not for OpenVPN, whose management goroutine changes the session's state without looking at it; the release properties do cover OpenVPN.
- IPsec sessions, the charon daemon and the routes of strongSwan.
- Sanitizer.Sanitize: the scanner's limit on the length of a line; text that is not valid UTF-8.
- Routes.ValidateSplitDNS: the byte length of the few letters outside ASCII whose lower case has another length.
- RemoteOverride.OverrideNamesGateway: for gateways and ports that are one token, as the callers give them.
- Credentials.OpenVPNFields: a Swift character that consists of several code points is read as those code points.
- IPv6 text and IPv4-mapped IPv6 text, which do not read as IPv4 here.
- NetBackend.WindowsRouter.AddRoutes: the index of an interface does not change between a call and its rollback, and no two interfaces have one index.
- NetBackend.CommandRouter.DeleteRoutes: a command for text that denotes no network is not recorded, since it names no entry.
- MutationBackends.MutationBackend.Apply: a domain is one resource, whatever the platform keeps for it.
- RouteMatch.RouteCheck: whether a profile is connected, which stands beside each match.
- RouteMatch.BestRoute: the parsing of the process list around the scan.
- The tray, its windows and web pages, HTTP handling, credential storage, container and analytics helpers, logging and time.
