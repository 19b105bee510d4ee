# wg-quic: verified models

A Dafny 4.11 model of the stateful core of wg-quic, with the promises that code makes
across calls, failures and crashes proved for every run. `dafny verify dfyconfig.toml`
checks the whole project.

| files | what they model |
|---|---|
| `FecLeases`, `CoreInstance`, `CorePeerSets` | the core: reference-counted FEC policy leases, generation-checked endpoint changes, the authentication fence, peer-set transactions |
| `EndpointProtocol`, `EndpointPlane`, `EndpointSupervisor`, `EndpointTransition`, `EndpointTransaction`, `EndpointRuns` | the endpoint supervisor: migration of one peer, transactions over many, and whole runs of both against the core |
| `RouteLedger`, `WindowsRoutes` | the durable endpoint-route ledger that Windows processes share |
| `PeerRoutes`, `JournaledRoutes` | peer route transactions and the write-ahead journal around them |
| `Framing`, `ReassemblySpec`, `Reassembler` | WGQ1 fragments: bytes, a table-level specification, and the map-plus-heap implementation that refines it |
| `EventLog`, `Admission`, `SendBudget` | the event ring with its paging reader, session admission counters, the send byte budget |
| `ConfText`, `TunnelDraft`, `TunnelPatch` | the tunnel editor's form, as a lens onto the configuration text |

How the pieces fit together:

- Code that updates fields is a class whose methods are proved against a function or an
  exact new state; the reasoning sits in lemmas about values. Each section that holds a
  lock is one step. Calls that leave the model (device, control channel, route system,
  files) fail nondeterministically and then have no effect, or their answer is a parameter.
- The supervisor's peer states are references into a store, because a transaction's two
  projections share the state of every peer it does not touch. Ghost roles say who answers
  for each unreleased lease; a ghost trace records what the core may use, and which leases
  are held, at every step.
- Windows kernel routes carry a ghost creator. The code sees only whether a route is there.
- A crash is a third outcome of a save or a host command, before or after its effect.

Four promises turned out to hold only under a condition, which is proved exact:

- A route transaction's rollback gives back the start if and only if what it applied
  fitted the start (`PeerRoutes.RolledBackTable`; `PeerRoutes.UnfitRollback` is an instance).
  Stopped halfway, the table is the start less what is removed plus what is added if and
  only if what was undone fitted it (`PeerRoutes.FittingTable`).
- `Initialize`, called again before it ever succeeded, loses exactly the leases that the
  peers it reaches still hold because their release had failed, whether it succeeds or not
  (`EndpointSupervisor.Supervisor.Initialize`; `EndpointSupervisor.LostLease` is an instance).
- A recovery that several processes had to take up counts every unproven route it kept if
  the last process still found the journal, and none if a crash came just after it was
  removed (`JournaledRoutes.RecoverRepeatedly`).
- Saving the tunnel form gives it back if and only if no edited value holds a line feed and
  no edit is of one of three lost kinds (`TunnelPatch.SaveThenReadAll`; `TunnelPatch.LostEdits`
  has one instance of each of the four).

Two further findings: a prepared frame is accepted by the parser if and only if its
payload is no longer than a fragment may be (`ReassemblySpec.PreparedRoundTrip`), and undoing
FEC changes works if and only if every changed peer still has the new policy, alone on its
endpoint (`CorePeerSets.PeerSets.UndoFec`).

## Model

| member | source | states |
|---|---|---|
| `FecLeases.AcquireThenCall` | internal/bind/endpoint_policy.go:80-159 | calling the release of a lease just acquired gives back the policy table exactly |
| `FecLeases.ReplaceThenReplaceBack` | internal/bind/endpoint_policy.go:109-138 | a policy replacement is undone exactly by the opposite one |
| `FecLeases.AcquireAccounts` | internal/bind/endpoint_policy.go:80-105 | acquiring for a peer, which retires its previous release, keeps every reference count equal to the releases held, each under the endpoint's policy |
| `FecLeases.RetireAccounts` | internal/core/instance.go:615-627 | retiring the active release as obsolete keeps the accounting |
| `FecLeases.HeldIsLive` | internal/bind/endpoint_policy.go:140-159 | calling a held release always takes exactly one reference from its endpoint and none from others: it is never a no-op |
| `FecLeases.CallAccounts` | internal/bind/endpoint_policy.go:140-159 | calling one held release keeps the accounting |
| `FecLeases.ReplaceAccounts` | internal/bind/endpoint_policy.go:109-138 | replacing a peer's policy in place keeps the accounting, because the endpoint has no second holder |
| `FecLeases.JoinAccounts` | internal/core/peer_transaction.go:193-201 | a new peer holding nothing keeps the accounting |
| `FecLeases.LeaveAccounts` | internal/core/peer_transaction.go:392-420 | a peer that has released everything can leave |
| `CoreInstance.Core.InstallPeerEndpoint` | internal/core/instance.go:545-613 | succeeds exactly for a positive, newer generation whose policy, key and device calls work, or for a repetition; then selects the endpoint unauthenticated and retires the old lease; otherwise nothing changes |
| `CoreInstance.Core.ClearPeerEndpoint` | internal/core/instance.go:507-543 | the same for selecting no endpoint |
| `CoreInstance.Core.FinalizePeerEndpoint` | internal/core/instance.go:629-662 | succeeds exactly at the current generation, and then only the selected endpoint remains in use |
| `CoreInstance.Core.ReleaseObsolete` | internal/core/instance.go:645-660 | calls every obsolete release of one peer, none of them a no-op |
| `CoreInstance.Core.AddPeer` | internal/core/peer_transaction.go:193-201 | adds a peer at the end of the order, holding nothing |
| `CoreInstance.Core.RemovePeer` | internal/core/peer_transaction.go:392-420 | releases all a peer holds and removes it from map and order |
| `CoreInstance.Core.RecordAuthenticatedReceive` | internal/core/instance.go:664-688 | authenticates the current generation exactly for a packet from the selected endpoint that entered after the generation was installed |
| `CoreInstance.Core.ReadyIsProved` | internal/core/instance.go:664-688 | AUTHENTICATION FENCE: readiness for a generation at an endpoint implies an authenticated packet from there that entered after the installation |
| `CorePeerSets.SwapBack` | internal/core/peer_transaction.go:302-330 | changing a peer's policy and changing it back restores peers and policy table exactly |
| `CorePeerSets.SwapSound` | internal/core/peer_transaction.go:255-287 | a policy change keeps lease accounting and authentication fence and touches no other peer |
| `CorePeerSets.Independent` | internal/core/peer_transaction.go:255-330 | whether one peer's policy can change does not depend on changes to another's |
| `CorePeerSets.PeerSets.SwapPeer` | internal/core/peer_transaction.go:255-330 | one policy change: works exactly when the specification does, else changes nothing |
| `CorePeerSets.PeerSets.ApplyChanges` | internal/core/peer_transaction.go:255-287 | ALL OR NOTHING: works exactly when each change is possible at the start; failing, it leaves peers and policies as they were |
| `CorePeerSets.PeerSets.UndoChanges` | internal/core/peer_transaction.go:302-330 | works exactly when each applied change can go back, and straight after applying gives back the start |
| `CorePeerSets.PeerSets.FindChanges` | internal/core/peer_transaction.go:121-143 | finds exactly the updates that ask for another policy than the peer has, each once with the old and the requested policy; nothing if a policy is invalid |
| `CorePeerSets.PeerSets.PreparePeerSet` | internal/core/peer_transaction.go:44-93 | accepts exactly a safe ID with new applicable content while none is active, or a repetition with the same content; a new one is active and newest, records exactly the requested policy changes, and fixes what a rollback must give back; a failed or repeated call changes none of that |
| `CorePeerSets.PeerSets.Trim` | internal/core/peer_transaction.go:461-473 | drops the oldest entries beyond 256 and never the active one |
| `CorePeerSets.PeerSets.ApplyFec` | internal/core/peer_transaction.go:255-287 | applies the active transaction's FEC changes once, all or nothing |
| `CorePeerSets.PeerSets.UndoFec` | internal/core/peer_transaction.go:289-330 | undoes them exactly when each changed peer can go back |
| `CorePeerSets.PeerSets.AddPeers` | internal/core/peer_transaction.go:193-202 | appends the added peers in request order and marks the transaction committed |
| `CorePeerSets.PeerSets.CommitPeerSet` | internal/core/peer_transaction.go:167-204 | succeeds exactly when prepared with possible FEC changes and a willing device, or already committed or finalized, which then changes nothing; failing, the peer order stays |
| `CorePeerSets.PeerSets.DropAdded` | internal/core/peer_transaction.go:228-243 | removes the added peers again: the order is the one at preparation, every other peer unchanged |
| `CorePeerSets.PeerSets.RollbackPeerSet` | internal/core/peer_transaction.go:206-253 | succeeds exactly when pending with a possible FEC undo and a willing device, or already rolled back; then peers, their order and their FEC policies are those that PreparePeerSet found, and no transaction is active |
| `CorePeerSets.PeerSets.FinalizePeerSet` | internal/core/peer_transaction.go:332-372 | succeeds exactly for a finalized one, or a committed one the device accepts; only then do removed peers go |
| `CorePeerSets.PeerSets.InterfereKeeps` | internal/core/instance.go:496-688 | endpoint installs, clears and finalizes and authenticated receives between two steps keep every transaction as it stands, the peers, their order and their policies; whether an FEC undo is still possible may change |
| `CorePeerSets.PrepareThenRollBack` | internal/core/peer_transaction.go:44-253 | ROLLBACK end to end: prepared, committed or not, with any endpoint calls in between, then undone: peers, order and policies are those before the preparation |
| `CorePeerSets.Run` | internal/core/peer_transaction.go:44-372 | PEER TRANSACTIONS over any sequence of calls: active exactly while pending, active is newest, at most 256 kept, FEC references accounted for |
| `EndpointProtocol.CoverIsSafe` | internal/endpoint/supervisor.go:464-536 | coverage by leases a peer relies on implies route safety without roles |
| `EndpointProtocol.AdoptSettles` | internal/endpoint/supervisor.go:483-501 | adopting a ready endpoint keeps every address in use covered, whether the old lease is retired or kept as extra |
| `EndpointProtocol.AbandonSettles` | internal/endpoint/supervisor.go:509-535 | so does returning to the old endpoint |
| `EndpointProtocol.MovesCoverAll` | internal/endpoint/supervisor.go:464-536 | what one peer's migration does to the leases leaves every other peer covered |
| `EndpointProtocol.RolesAccount` | internal/endpoint/supervisor.go:897-947 | LEASE CONSERVATION without ghost roles: the unreleased leases are exactly those in the retired or extra list, in the state of an unreserved peer, or in a transaction's old state or candidates, but for lost ones |
| `EndpointPlane.Plane.SetPeerEndpoint` | internal/quick/endpoint_control.go:17-24 | the core's installation as the supervisor sees it, callable only with the route covered; every step recorded is route-safe |
| `EndpointPlane.Plane.ClearPeerEndpoint` | internal/quick/endpoint_control.go:26-37 | the same for clearing |
| `EndpointPlane.Plane.FinalizePeerEndpoint` | internal/quick/endpoint_control.go:39-48 | the same for finalizing: afterwards only the selected endpoint is in use |
| `EndpointPlane.Plane.WaitPeerReady` | internal/quick/endpoint_control.go:50-83 | answers ready only with an authenticated packet that entered after the generation was installed |
| `EndpointPlane.Plane.AcquireEndpointRoute` | internal/endpoint/supervisor.go:468-471 | a new lease has an identity no lease ever had, and is held from then on |
| `EndpointPlane.Plane.ReleaseLease` | internal/endpoint/supervisor.go:927-933 | releases only a lease that is held and that no guarded peer relies on; never the same one twice |
| `EndpointPlane.Plane.CoreRemovesPeer` | internal/core/peer_transaction.go:392-420 | the core drops one peer; every step recorded stays route-safe |
| `EndpointSupervisor.Supervisor.Initialize` | internal/endpoint/supervisor.go:186-248 | success makes every configured peer live; the leases lost are exactly those that the peers reached so far still held at the call, on success and on failure, and none once the supervisor is live or closed |
| `EndpointSupervisor.LostLease` | internal/endpoint/supervisor.go:202-242 | two peers and a failed release: two installations as Initialize makes them, and after the second nothing records the first lease any more |
| `EndpointSupervisor.Supervisor.InstallPeer` | internal/endpoint/supervisor.go:202-242 | one peer gets its first endpoint and lease, or nothing is lost |
| `EndpointSupervisor.Supervisor.InstallAt` | internal/endpoint/supervisor.go:214-236 | one address: generation 1 with its lease, or the state unchanged |
| `EndpointSupervisor.Supervisor.RefreshPeer` | internal/endpoint/supervisor.go:376-447 | keeps route safety and agreement with every configured peer guarded at every step, never raises the backlog of unreleased leases above 64, reports a new endpoint only with its authentication proof, leaves reserved or unknown peers alone, and changes no other peer |
| `EndpointSupervisor.Supervisor.TryAddresses` | internal/endpoint/supervisor.go:412-447 | tries addresses until one authenticates or the backlog is full: success has its proof, and no other peer's state changes |
| `EndpointSupervisor.Supervisor.SwitchPeer` | internal/endpoint/supervisor.go:464-536 | one migration with a failure branch after every call: all invariants hold afterwards; it refuses exactly at a backlog of 64 and adopts only with proof |
| `EndpointSupervisor.Supervisor.Try` | internal/endpoint/supervisor.go:468-479 | acquires a lease and installs the next generation, or the lease is released or retired |
| `EndpointSupervisor.Supervisor.Adopt` | internal/endpoint/supervisor.go:483-506 | makes the proved endpoint the peer's; the old lease is released, retired or extra |
| `EndpointSupervisor.Supervisor.Retain` | internal/endpoint/supervisor.go:514-523 | if the core cannot be moved back, the new generation is adopted and both leases are kept |
| `EndpointSupervisor.Supervisor.Abandon` | internal/endpoint/supervisor.go:509-535 | moves the peer back or retains both leases; invariants hold either way |
| `EndpointSupervisor.Supervisor.Returned` | internal/endpoint/supervisor.go:525-535 | after moving back, only the generation changed; the tried lease is released, retired or extra |
| `EndpointSupervisor.Supervisor.KeepTried` | internal/endpoint/supervisor.go:525-532 | the core is back but not finalized: the tried lease is kept as extra |
| `EndpointSupervisor.Supervisor.RetireLease` | internal/endpoint/supervisor.go:927-933 | released, or on the retired list: never neither |
| `EndpointSupervisor.Supervisor.ReleaseRetired` | internal/endpoint/supervisor.go:935-947 | success empties the retired list; what fails stays listed |
| `EndpointSupervisor.Supervisor.ReleasePeer` | internal/endpoint/supervisor.go:897-923 | a peer keeps its lease exactly when the release fails |
| `EndpointSupervisor.Supervisor.ReleaseExtra` | internal/endpoint/supervisor.go:897-923 | the same for the extra list |
| `EndpointSupervisor.Supervisor.ReleaseAll` | internal/endpoint/supervisor.go:897-923 | success leaves no lease unreleased but lost ones |
| `EndpointSupervisor.Supervisor.Close` | internal/endpoint/supervisor.go:842-895 | with no open transaction, a successful Close has reached every lease but lost ones |
| `EndpointTransition.CandidateInstalled` | internal/endpoint/peer_transaction.go:239-252 | installing a candidate keeps what holds of a peer in a transaction: every address in use covered, old state restorable |
| `EndpointTransition.BeforeRestored` | internal/endpoint/peer_transaction.go:281-304 | restoring keeps it, and the restored state has a strictly later generation than the one found |
| `EndpointTransition.CandidateReleased` | internal/endpoint/peer_transaction.go:464-483 | a candidate's lease can go once the peer is back where it was |
| `EndpointTransition.OldReleased` | internal/endpoint/peer_transaction.go:439-452 | the old lease can go once the core has finalized the new endpoint |
| `EndpointTransition.RolledBackSettles` | internal/endpoint/peer_transaction.go:342-409 | a rolled-back peer agrees with the core and holds exactly its own lease |
| `EndpointTransition.FinalizedSettles` | internal/endpoint/peer_transaction.go:411-462 | a finalized peer does too, at its new endpoint |
| `EndpointTransition.ReleaseStep` | internal/endpoint/peer_transaction.go:485-497 | giving the reservations back keeps every invariant |
| `EndpointTransaction.NewProjection` | internal/endpoint/peer_transaction.go:71-106 | the new projection: unchanged peers share the live state, others get a fresh one |
| `EndpointTransaction.OldProjection` | internal/endpoint/peer_transaction.go:87-101 | the old projection: unchanged peers share the live state, affected ones a copy |
| `EndpointTransaction.PreparePeerSet` | internal/endpoint/peer_transaction.go:63-179 | starts exactly when allowed; the transaction is the one the plan asks for: old and new peer lists, affected peers, for each the state found and the one planned; prepares every affected peer or leaves it to be rolled back; peers stay as they are and guarded at every step, no lease is lost |
| `EndpointTransaction.PreparedPeerSet.Reserve` | internal/endpoint/peer_transaction.go:108-130 | reserves exactly the affected peers |
| `EndpointTransaction.PreparedPeerSet.PrepareOne` | internal/endpoint/peer_transaction.go:120-177 | one peer becomes committable, whatever fails on the way, and no other peer is touched |
| `EndpointTransaction.PreparedPeerSet.InstallReadyCandidate` | internal/endpoint/peer_transaction.go:234-279 | tries candidates in order; success means the chosen one is installed, recorded and proved ready |
| `EndpointTransaction.PreparedPeerSet.TryCandidate` | internal/endpoint/peer_transaction.go:238-276 | one candidate: ready, or restored and dropped, or left for the rollback |
| `EndpointTransaction.PreparedPeerSet.RestoreBefore` | internal/endpoint/peer_transaction.go:281-304 | the old endpoint is selected again under the next generation, or nothing changed |
| `EndpointTransaction.PreparedPeerSet.ClearEndpoint` | internal/endpoint/peer_transaction.go:142-151 | a removed endpoint is cleared under the next generation |
| `EndpointTransaction.PreparedPeerSet.CommitOne` | internal/endpoint/peer_transaction.go:319-327 | an added peer gets its endpoint now that the core has it |
| `EndpointTransaction.PreparedPeerSet.Commit` | internal/endpoint/peer_transaction.go:306-340 | success publishes the new projection, each affected peer configured as planned and in agreement with the core; failure publishes nothing; what was found and planned is kept, other peers are untouched, all stay guarded |
| `EndpointTransaction.PreparedPeerSet.RollBackOne` | internal/endpoint/peer_transaction.go:356-381 | an installed peer ends restored and finalized, or the step can be retried |
| `EndpointTransaction.PreparedPeerSet.Rollback` | internal/endpoint/peer_transaction.go:342-409 | every affected peer has exactly the state found at preparation, at a strictly later generation if it was moved; every other peer keeps what happened to it meanwhile; all stay guarded; the leases left are those of the lists and of the old peers |
| `EndpointTransaction.PreparedPeerSet.FinalizeOne` | internal/endpoint/peer_transaction.go:423-435 | finalizes one installed peer in the core, once |
| `EndpointTransaction.PreparedPeerSet.ReleaseReplaced` | internal/endpoint/peer_transaction.go:439-458 | old leases, then spare ones, are released past any failure; success means none is left |
| `EndpointTransaction.PreparedPeerSet.ReleaseOlds` | internal/endpoint/peer_transaction.go:439-452 | every lease a peer had before is released once, or kept if that fails; success means none is left |
| `EndpointTransaction.PreparedPeerSet.ReleaseSpares` | internal/endpoint/peer_transaction.go:464-483 | the same for the candidates that were not chosen |
| `EndpointTransaction.PreparedPeerSet.Finalize` | internal/endpoint/peer_transaction.go:411-462 | changes no published peer state and keeps all guarded; success closes the transaction on the new projection, and the leases left are those of the lists and of the new peers; failure leaves it to be retried |
| `EndpointTransaction.PreparedPeerSet.ReleaseReservations` | internal/endpoint/peer_transaction.go:485-497 | no peer stays reserved, no peer state changes |
| `EndpointTransaction.PreparedPeerSet.AcquireCandidate` | internal/endpoint/peer_transaction.go:159-168 | a candidate is listed exactly when its lease was acquired |
| `EndpointTransaction.PreparedPeerSet.PrepareAll` | internal/endpoint/peer_transaction.go:120-178 | every affected peer is committable, or the transaction stays open for the rollback; all other peers are as they were |
| `EndpointTransaction.PreparedPeerSet.Publish` | internal/endpoint/peer_transaction.go:385-402 | switches the live projection without touching any peer state |
| `EndpointRuns.Run` | internal/endpoint/supervisor.go:464-536 | ROUTE SAFETY, CONSERVATION AND AGREEMENT over every run of initializations, refreshes, transactions, closes and core peer changes, whatever fails: at every step each address the core may use for a guarded peer has an unreleased lease; a peer that stays configured over a step of the live phase is guarded throughout it; the unreleased leases are exactly those in a list, a peer's state or a transaction, but for lost ones, and none is lost once the live phase has begun; every live peer outside an uncommitted transaction agrees with the core |
| `EndpointRuns.Step` | internal/endpoint/supervisor.go:186-536 | one step, whichever it is: guards the peers that stay configured at every moment of it, and loses a lease only before the live phase, and only one a peer still held |
| `EndpointRuns.PrepareThenRollBack` | internal/endpoint/peer_transaction.go:63-409 | ROLLBACK end to end: prepared or failed, committed or not, with other peers refreshed meanwhile, then undone: the same peers in the same order, each affected one in the state it had before, under the same or a later generation; peers neither affected nor refreshed unchanged |
| `EndpointRuns.PrepareThenCommit` | internal/endpoint/peer_transaction.go:63-462 | COMMIT end to end: the peers are those of the plan in its order, each affected one configured as planned, the rest unchanged unless refreshed; no lease is lost |
| `EndpointRuns.Conclude` | internal/endpoint/peer_transaction.go:281-409 | what the invariant says of one state: safe trace, conserved leases, agreement after refresh, Commit, Rollback and Finalize |
| `EndpointRuns.CorePeerRemoved` | internal/core/peer_transaction.go:350-364 | the core may drop a peer once the supervisor no longer answers for it |
| `RouteLedger.AddCounts` | internal/platform/windows_route_manager.go:1095-1104 | adding a reference adds one to that owner and none to any other |
| `RouteLedger.RemoveCounts` | internal/platform/windows_route_manager.go:1106-1118 | removing one takes exactly one |
| `RouteLedger.AddWellOwned` | internal/platform/windows_route_manager.go:1095-1104 | owners stay listed once, each with references |
| `WindowsRoutes.Host.DeleteRoute` | internal/platform/windows_route_manager.go:87-93 | can only be called on a route that is absent or that this code created |
| `WindowsRoutes.Host.OthersCreate` | internal/platform/windows_route_manager.go:203-207 | others may create any route but one whose managed ownership is durable; the ledger stays honest |
| `WindowsRoutes.Manager.AcquireEndpointRoute` | internal/platform/windows_route_manager.go:141-297 | success: from the reconciled ledger that was on disk, exactly one reference of this owner was added to the selected route and no other record touched; the result is on disk and the route in the kernel |
| `WindowsRoutes.Manager.AcquireKnown` | internal/platform/windows_route_manager.go:186-249 | the same for a route the ledger knows, in each of its states |
| `WindowsRoutes.Manager.AcquireNew` | internal/platform/windows_route_manager.go:251-297 | the same for a new one: borrowed if present, else reserved durably before it is created |
| `WindowsRoutes.Manager.Refresh` | internal/platform/windows_route_manager.go:329-385 | success: on disk, this owner's record is active with the same owners, and no other record of the reconciled ledger changed; the new lease is its key and revision, and a change is reported exactly when the lease differs |
| `WindowsRoutes.Manager.MigrateRecord` | internal/platform/windows_route_manager.go:387-492 | success: one record moved, durable, its route present if managed or new; all other records unchanged |
| `WindowsRoutes.Manager.StayOn` | internal/platform/windows_route_manager.go:419-444 | re-evaluated to the same route: the record restored, a new revision exactly if something changed |
| `WindowsRoutes.Manager.MoveTo` | internal/platform/windows_route_manager.go:445-492 | moved to another route: it exists, the revision is the next, the owners are kept |
| `WindowsRoutes.Manager.RestoreMigration` | internal/platform/windows_route_manager.go:494-519 | a failed migration never reports success; the ledger on disk is the one found or the one with the record as it was before |
| `WindowsRoutes.Manager.Release` | internal/platform/windows_route_manager.go:521-573 | takes exactly one reference of this owner from the reconciled ledger that was on disk, and none of any other; the record of the last one goes, with its route if managed |
| `WindowsRoutes.Manager.Reconcile` | internal/platform/windows_route_manager.go:726-851 | record by record: one without live owner, or reserving a route that never appeared, may go; any other stays, active, with exactly its live owners and their references; records of other compartments unchanged |
| `WindowsRoutes.Manager.ReconcileOne` | internal/platform/windows_route_manager.go:735-847 | the same for one record, with all others unchanged |
| `WindowsRoutes.SurvivorOf` | internal/platform/windows_route_manager.go:726-851 | a record with a live owner that is no mere reservation is never lost by reconciliation |
| `WindowsRoutes.LiveReferences` | internal/platform/windows_route_manager.go:737-753 | dropping dead owners takes their references and nobody else's |
| `WindowsRoutes.Manager.LiveOwners` | internal/platform/windows_route_manager.go:737-753 | keeps exactly the owners whose process runs, and the asking manager itself, in order |
| `WindowsRoutes.Manager.DropAbandoned` | internal/platform/windows_route_manager.go:759-780 | an abandoned record goes; its route goes too if creation is proved, and otherwise the kernel is untouched |
| `WindowsRoutes.Manager.Settle` | internal/platform/windows_route_manager.go:782-847 | a record with owners becomes active, or was a reservation whose route never appeared |
| `WindowsRoutes.Manager.ReconcileAbandoned` | internal/platform/windows_route_manager.go:857-923 | the ledger on disk afterwards is exactly the one before without dead owners and without the records they were the last owners of |
| `WindowsRoutes.Run` | internal/platform/windows_route_manager.go:141-297 | OWNERSHIP SAFETY over all interleavings of processes, other actors, damaged files and crashes: no route that others created is ever deleted |
| `WindowsRoutes.Host.Load` | internal/platform/windows_route_manager.go:687-715 | the ledger if its file is intact, else the backup with every claim demoted, else none; refused if it does not validate; honest about the kernel in each case |
| `WindowsRoutes.Host.Save` | internal/platform/windows_route_store_windows.go:279-299 | on success the new ledger is what will be loaded; after a failure or crash it is the new or the old one; the backup is the last intact ledger or the backup before |
| `WindowsRoutes.Manager.Open` | internal/platform/windows_route_manager.go:163-175 | load, reconcile and save: every record of this compartment is settled, the ledger is what reconciliation makes of the one on disk, and is on disk now |
| `PeerRoutes.CanonicalPrefixes` | internal/platform/peer_routes.go:93-120 | rejects exactly duplicates; else the same prefixes in ascending order |
| `PeerRoutes.PreparePlan` | internal/platform/peer_routes.go:49-91 | rejects exactly plans with duplicates or with a prefix both removed and added |
| `PeerRoutes.FittingTable` | internal/platform/peer_routes.go:122-228 | the host table is the start, less the applied removals, plus the applied additions, if and only if every undone removal was present at the start and every undone addition absent |
| `PeerRoutes.RolledBackTable` | internal/platform/peer_routes.go:163-215 | a complete rollback gives back the start if and only if the plan fitted it |
| `PeerRoutes.UnfitRollback` | internal/platform/peer_routes.go:193-215 | removing an absent prefix and rolling back leaves it behind |
| `PeerRoutes.TargetTable` | internal/platform/peer_routes.go:217-228 | a fully applied plan gives the target whatever the start |
| `PeerRoutes.PreparedRoutes.CommitRemovals` | internal/platform/peer_routes.go:122-139 | extends the applied prefix of removals, to all of them on success |
| `PeerRoutes.PreparedRoutes.CommitAdditions` | internal/platform/peer_routes.go:141-161 | the same for additions, only after all removals |
| `PeerRoutes.PreparedRoutes.RollbackAdditions` | internal/platform/peer_routes.go:170-191 | shrinks the applied prefix from the end, to nothing on success; refused once finalized |
| `PeerRoutes.PreparedRoutes.RollbackRemovals` | internal/platform/peer_routes.go:193-215 | the same for removals, only after all additions |
| `PeerRoutes.PreparedRoutes.Rollback` | internal/platform/peer_routes.go:163-168 | success: the table is the start if and only if the plan fitted |
| `PeerRoutes.PreparedRoutes.Finalize` | internal/platform/peer_routes.go:217-228 | succeeds exactly when everything is applied, and the table is the target |
| `PeerRoutes.RunCalls` | internal/platform/peer_routes.go:122-228 | ROUTE TRANSACTION over any sequence of calls with any command failing or crashing: the table is the start less the applied removals plus the applied additions if and only if what was undone fitted the start; rolled back is the start exactly if the plan fitted; finalized is the target |
| `JournaledRoutes.Journal.Begin` | internal/platform/peer_routes_windows.go:179-197 | the prepared record becomes durable, or a crash leaves the old one |
| `JournaledRoutes.Journal.Mark` | internal/platform/peer_routes_windows.go:199-214 | the phase becomes durable before memory says so |
| `JournaledRoutes.Journal.SetActive` | internal/platform/peer_routes_windows.go:216-232 | the active projection becomes durable |
| `JournaledRoutes.Journal.Recover` | internal/platform/peer_routes_windows.go:261-358 | deletes exactly what the journal proves, counts every present unproven addition, and forgets the journal only on success |
| `JournaledRoutes.Journal.FindUnproven` | internal/platform/peer_routes_windows.go:299-333 | exactly the present additions that nothing proves |
| `JournaledRoutes.Journal.DeleteProven` | internal/platform/peer_routes_windows.go:334-356 | deletes only proven routes, and on success all of them |
| `JournaledRoutes.JournaledTransaction.CommitRemovals` | internal/platform/journaled_peer_routes.go:128-144 | recoverable after any crash; success applies all removals and makes that durable |
| `JournaledRoutes.JournaledTransaction.CommitAdditions` | internal/platform/journaled_peer_routes.go:146-165 | the same for additions, which are recorded complete only when they are |
| `JournaledRoutes.JournaledTransaction.RollbackAdditions` | internal/platform/journaled_peer_routes.go:174-194 | recoverable; success takes all additions back and records that |
| `JournaledRoutes.JournaledTransaction.RollbackRemovals` | internal/platform/journaled_peer_routes.go:196-221 | recoverable; success makes the old projection current and durable |
| `JournaledRoutes.JournaledTransaction.Rollback` | internal/platform/journaled_peer_routes.go:167-172 | both of these in order |
| `JournaledRoutes.JournaledTransaction.Finalize` | internal/platform/journaled_peer_routes.go:223-241 | recoverable; success makes the new projection current and durable and the table the target |
| `JournaledRoutes.RecoveredTable` | internal/platform/peer_routes_windows.go:261-358 | CRASH RECOVERY: whatever the journal may say at any point of a transaction, no route of the old projection remains, additions go exactly if recorded complete, nothing else is touched |
| `JournaledRoutes.RouteManager.ApplyPlan` | internal/platform/journaled_peer_routes.go:96-126 | accepts exactly removals of current prefixes and additions of new ones, and projects them in order |
| `JournaledRoutes.RouteManager.Prepare` | internal/platform/journaled_peer_routes.go:60-94 | one transaction in flight, journaled before anything changes; a failure or crash leaves the journal as it was or announcing the plan with nothing done |
| `JournaledRoutes.RunTransaction` | internal/platform/journaled_peer_routes.go:128-241 | any sequence of calls, cut off by a crash anywhere, is recoverable |
| `JournaledRoutes.RecoverTransaction` | internal/platform/peer_routes_windows.go:261-358 | recovery of what such a run left, in one attempt, with the table it ends in |
| `JournaledRoutes.RecoverOnce` | internal/platform/peer_routes_windows.go:261-358 | one attempt: whatever cuts it short, the table stays between the recovered one and the one found, and the journal goes only when it is recovered |
| `JournaledRoutes.RecoverRepeatedly` | internal/platform/peer_routes_windows.go:261-358 | recovery cut short any number of times and taken up by new processes: the table ends as if it had gone through at once; the last process counts every unproven route, or none if the journal was gone before it began |
| `Framing.ParseExact` | internal/bind/framing.go:115-139 | a frame parses to a fragment if and only if the fragment is legal and the frame is its encoding |
| `Framing.WriteFragmentHeader` | internal/bind/framing.go:70-77 | writes exactly the 21 header bytes and leaves the rest |
| `Framing.FramePreparedPacket` | internal/bind/framing.go:61-68 | frames in place exactly packets of 1 to 65535 bytes; otherwise the buffer is untouched |
| `Framing.FragmentPacketSized` | internal/bind/framing.go:35-55 | succeeds exactly for framable packets, with the encodings of all fragments in order; each error under its own condition |
| `Framing.ChunksJoin` | internal/bind/framing.go:35-55 | the fragments' data, joined, is the packet |
| `ReassemblySpec.After` | internal/bind/framing.go:201-256 | REASSEMBLY BOUNDS for every stream of frames, expiries and discards: at most 2048 groups, and in each bytes plus missing fragments are at most the total, at most 65535 |
| `ReassemblySpec.RoundTrip` | internal/bind/framing.go:201-256 | FRAGMENT ROUND TRIP: any order, duplicates before completion, other keys interleaved, inside the lifetime and with room: exactly the packet at the last missing fragment, nothing before |
| `ReassemblySpec.FramesRoundTrip` | internal/bind/framing.go:35-256 | the same from the bytes that the fragmenting framer produced |
| `ReassemblySpec.PreparedRoundTrip` | internal/bind/framing.go:61-139 | a frame prepared in place parses if and only if its payload fits a fragment, and then yields the payload at once |
| `ReassemblySpec.EmittedPacket` | internal/bind/framing.go:201-256 | any packet emitted has length total and consists of fragments of one session, packet ID and metadata |
| `Reassembly.Reassembler.Swap` | internal/bind/framing.go:264-267 | exchanges two groups and their back-indices |
| `Reassembly.Reassembler.Up` | internal/bind/framing.go:260-279 | sifting up restores min order, keeping members and back-indices |
| `Reassembly.Reassembler.Down` | internal/bind/framing.go:260-279 | so does sifting down |
| `Reassembly.Reassembler.HeapPush` | internal/bind/framing.go:268-272 | adds one group; order, indices and members kept |
| `Reassembly.Reassembler.HeapRemove` | internal/bind/framing.go:273-279 | removes one group from anywhere; the same |
| `Reassembly.Reassembler.Drop` | internal/bind/framing.go:281-284 | removes one group from map and heap together |
| `Reassembly.Reassembler.ExpireLocked` | internal/bind/framing.go:286-290 | EXPIRY REFINEMENT: popping from the heap removes exactly the groups a full scan of the table would |
| `Reassembly.Reassembler.Expire` | internal/bind/framing.go:292-296 | the same, as called by the sweeper |
| `Reassembly.Reassembler.DiscardSession` | internal/bind/framing.go:298-306 | removes exactly one session's groups |
| `Reassembly.Reassembler.Add` | internal/bind/framing.go:201-256 | the implementation is the table-level specification, outcome and new table |
| `Reassembly.Reassembler.StoreFragment` | internal/bind/framing.go:229-256 | one fragment of a live group: conflict, duplicate, overflow, stored or complete, as specified |
| `Reassembly.Reassembler.Complete` | internal/bind/framing.go:246-256 | a group with all its fragments leaves the table, as the joined packet exactly if the lengths add up |
| `Reassembly.Feed` | internal/bind/framing.go:201-306 | a whole stream through the implementation gives the specified table and outcomes |
| `EventLog.SlotModulo` | internal/bind/event_log.go:59-60 | the ring slot is the remainder that Search and Copy index by |
| `EventLog.RingGrows` | internal/bind/event_log.go:83-101 | a growing ring is the whole history |
| `EventLog.RingTurns` | internal/bind/event_log.go:83-101 | a full ring is the last 4096 events after every append |
| `EventLog.EventLog.Append` | internal/bind/event_log.go:83-101 | the history grows by one numbered event; the ring is its end and dropped is sequence less length |
| `EventLog.EventLog.Search` | internal/bind/event_log.go:59-61 | binary search finds the first kept event after the cursor |
| `EventLog.EventLog.Page` | internal/bind/event_log.go:39-71 | refuses exactly another stream; else the exact slice of the history after the cursor, with its bounds |
| `EventLog.Collector.Consume` | internal/observe/collector.go:781-796 | takes the events of a page once and in order, or stops at a boundary |
| `EventLog.Collector.ReadPage` | internal/observe/collector.go:742-802 | one page, with any appends or a restart before it: nothing is skipped or repeated |
| `EventLog.Collector.Drain` | internal/observe/collector.go:742-802 | EVENT STREAM, one drain: what was written is the history from the old cursor to the new one, of the sessions wanted by then; caught up means nothing is missing |
| `EventLog.Collect` | internal/observe/collector.go:222-441 | EVENT STREAM over any number of drains, with sessions joining in between: what is written are events of one stretch of one stream, each at most once and in order, none of an unwanted session, and all of a session wanted from the start |
| `EventLog.SelectedPicks` | internal/observe/collector.go:781-796 | one drain picks events at most once and in order, all of the fewer sessions and only of the more |
| `EventLog.RisingShort` | internal/observe/collector.go:781-796 | a stretch of n events yields at most n written ones |
| `EventLog.Server.Meanwhile` | internal/bind/event_log.go:27-31 | between two pages histories only grow, and a restart brings a new stream |
| `EventLog.Collector.Take` | internal/observe/collector.go:785-795 | the cursor moves to an event exactly when it was written or skipped on purpose |
| `Admission.RunState.NewSession` | internal/bind/session.go:116-174 | admits exactly below all three limits while not closing, and counts the session |
| `Admission.RunState.Shutdown` | internal/bind/bind.go:204-210 | nothing is admitted from then on |
| `Admission.RunState.BeginClose` | internal/bind/session.go:338-340 | only the first close proceeds |
| `Admission.RunState.FinishClose` | internal/bind/session.go:356-368 | unregisters the session and takes it out of the counters it is still in |
| `Admission.RunState.ExpireAuthentication` | internal/bind/admission.go:18-31 | times out exactly an open unauthenticated session |
| `Admission.RunState.AssociateSessionPeer` | internal/bind/admission.go:56-91 | authenticates and notes the peer exactly on a registered session that has not timed out and is closed neither before the locked part nor between it and the rest; a peer's generation never goes back |
| `Admission.RunState.Authenticate` | internal/bind/admission.go:70-80 | the locked part: an open session that has not timed out becomes authenticated and leaves the pending counter once; a closing one is left alone |
| `Admission.RunState.NotePeer` | internal/bind/admission.go:81-91 | the part after the lock: exactly an open session notes the peer with the later of the two generations |
| `Admission.Run` | internal/bind/admission.go:13-91 | ADMISSION: however creation, authentication, timeout, close and shutdown race, the counters are the registered inbound and the still unauthenticated sessions, within their limits; a close, a noted peer and its generation never go back; only an authenticated session has noted a peer; once closing there are no new sessions |
| `Admission.RunNew` | internal/bind/admission.go:13-91 | from a tunnel that just came up: a session that has noted a peer is authenticated, or was and is closed |
| `Admission.Left` | internal/bind/session.go:356-368 | a leaving session lowers each counter exactly if it was counted there |
| `SendBudget.Session.LoadLimit` | internal/bind/send_budget.go:122-126 | the limit in force: the budget, or 65536 before the first sample |
| `SendBudget.Session.LoadCurrent` | internal/bind/send_budget.go:128-133 | refuses exactly when something is queued and the frame does not fit |
| `SendBudget.Session.CompareAndSwap` | internal/bind/send_budget.go:134-137 | reserves exactly when nobody changed the counter in between |
| `SendBudget.Session.Enqueue` | internal/bind/send_budget.go:61-70 | queues exactly when there is room |
| `SendBudget.Session.GiveUp` | internal/bind/send_budget.go:71-78 | gives the bytes back |
| `SendBudget.Session.Release` | internal/bind/session_send.go:144-166 | the send loop gives the bytes of a taken frame back |
| `SendBudget.Session.UpdateBudget` | internal/bind/send_budget.go:92-113 | the new budget from the known rates, within floor and queue capacity; no rate, no change |
| `SendBudget.Run` | internal/bind/send_budget.go:37-145 | SEND BUDGET under any interleaving of senders, send loop and budget updates: the counter is the sum of the frames reserved and not yet taken, never negative, never above max(65556, 1500 × capacity) |
| `SendBudget.Session.Take` | internal/bind/session_send.go:144-151 | the send loop takes the oldest frame, whose bytes stay counted until it gives them back |
| `ConfText.SplitIsUnique` | desktop/src/tunnel-draft.ts:75 | a text splits into lines in one way only |
| `ConfText.RawsJoin` | desktop/src/tunnel-draft.ts:75 | joining the lines gives the text back |
| `ConfText.TrimEnding` | desktop/src/tunnel-draft.ts:76 | a line ending does not change what a line says |
| `TunnelDraft.SettingReads` | desktop/src/tunnel-draft.ts:127-132 | a written setting is read back as its field and value wherever that field can be set |
| `TunnelDraft.SettingIsLine` | desktop/src/tunnel-draft.ts:127-132 | it is one whole line |
| `TunnelDraft.DocumentLines` | desktop/src/tunnel-draft.ts:72-94 | every line with its section, peer number, field and value |
| `TunnelDraft.ParseConf` | desktop/src/tunnel-draft.ts:100-114 | every form field is the fold of the lines that set it, lists joined, others overwritten; peers counted |
| `TunnelPatch.StepKeeps` | desktop/src/tunnel-draft.ts:135-149 | one source line: unedited fields read as before, edited ones as written or absent, kept lines stay, section and peer number agree |
| `TunnelPatch.StepsWrite` | desktop/src/tunnel-draft.ts:133-149 | an edited field is written by a prefix of the source if and only if its line or section has come |
| `TunnelPatch.PeerSections` | desktop/src/tunnel-draft.ts:77-90 | a peer has a section if and only if its number is below the peer count |
| `TunnelPatch.Lens` | desktop/src/tunnel-draft.ts:116-158 | line-level lens: a field comes back if and only if its edit is not lost |
| `TunnelPatch.LinesSurvive` | desktop/src/tunnel-draft.ts:133-158 | every line that sets no edited field survives in order; a new peer section is the only addition |
| `TunnelPatch.SaveThenRead` | desktop/src/tunnel-draft.ts:116-158 | FORM/SOURCE LENS on texts, field by field: saving and reading gives each field back, trimmed, if and only if its edit is not lost |
| `TunnelPatch.SaveThenReadAll` | desktop/src/tunnel-draft.ts:116-158 | FORM/SOURCE LENS for every form whatever: all of it comes back if and only if no edited value holds a line feed and no edit is lost |
| `TunnelPatch.SaveKeepsLines` | desktop/src/tunnel-draft.ts:133-158 | unedited lines of the source are all in the saved text, in order; for a peer that is there or the next one, only a new section is added |
| `TunnelPatch.SaveTwice` | desktop/src/tunnel-draft.ts:121-122 | a second save of the same form has nothing left to change if and only if the first gave everything back, and then changes nothing |
| `TunnelPatch.LostEdits` | desktop/src/tunnel-draft.ts:116-158 | one edit of each lost kind, and one with a line feed, that do not come back |
| `TunnelPatch.PatchConf` | desktop/src/tunnel-draft.ts:116-158 | the loop over text and sets computes the specified text for every source, index and form |
| `TunnelPatch.PatchLine` | desktop/src/tunnel-draft.ts:135-149 | one turn of the loop over text and sets does the specified step |

## Left out

Weaker or narrower than the code:

- EndpointTransaction.PreparePeerSet: is modelled after a first Initialize or Close, not before; it assumes that a peer the plan adds is unknown to the core or untouched there.
- EndpointTransaction.PreparedPeerSet.Commit: is called once; Rollback is never called after Finalize has begun.
- EndpointSupervisor.Supervisor.Close: requires that no transaction is open, because the leases only a transaction knows are not within its reach.
- EndpointSupervisor.Supervisor.Adopt: publishes the peer's new state after the core's finalize call, where the code does it just before, in the same locked section.
- EndpointSupervisor.Supervisor.RefreshPeer: is modelled after a first Initialize or Close, not before; resolution, failed-candidate memory and backoff are nondeterministic, so which address is tried is not stated.
- EndpointRuns.Run: the core drops a peer only when the supervisor no longer answers for it, or while a transaction without it is being finalized.
- CorePeerSets.PeerSets.PreparePeerSet: compares content where the code compares a keyed fingerprint of it.
- CorePeerSets.PeerSets.RollbackPeerSet: a partly failed FEC undo is not retried successfully in general; the condition is the one UndoFec states.
- WindowsRoutes.Host.Save: persists only. The disk store also replaces the ledger in memory, which the interface leaves open.
- WindowsRoutes.Host.Load: a damaged file counts as absent; that it is moved aside is not modelled.
- WindowsRoutes.Manager.Refresh: which route is chosen is up to the system, so it is not stated.
- JournaledRoutes.Journal.Recover: one host command per prefix; interface and compartment are one identity.
- SendBudget.Run: proves accounting and the bound, not that a waiting sender is woken in time.
- TunnelPatch.SaveThenRead: says of a single field what comes back only where no edited value holds a line feed; of the whole form, SaveThenReadAll says it for all.
- TunnelPatch.SaveKeepsLines: edited values hold no line feed inside, which would split into lines that mean something else.

Not modelled:

- Activation, refresh workers, RefreshRoutes, network change handling, status publication and all timing.
- Core shutdown (closing prepared transactions), receive keys, obfuscation keys and peer probes.
- Route notifications, ledger text validation, reference overflow, interface index, metric and source (one `detail` value), the FreeBSD ledger.
- Default-route and table checks of peer routes, command text, the journal's JSON, files, quarantine and access rights.
- FEC coding, the QUIC carrier and the WireGuard device.
- Event wall-clock times, metrics, and checks on stream IDs that the server never violates.
- Reassembly buffers and their pool; datagram classifiers.
- buildConf for a form without a source text: a straight rendering.
- UTF-16: text is a sequence of characters, and lower case is modelled as far as it can produce a Latin letter.
