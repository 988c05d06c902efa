# Models of the stateful cores of Dockge Enhanced

This project models the parts of the backend that keep state across awaits or compute over graphs
and queues, and proves what they promise. To verify:

    dafny verify dfyconfig.toml

Every await of the source is a point where any other operation may run. An operation is therefore
split at its awaits into events, a state machine (`Step`, `Run`) says what each event does, and
the properties are about all sequences of events. Where the source updates an object in place, a
class with the same fields carries out each stretch between two awaits and is proved equal to the
event of the state machine. `AgentManager`, `DeploymentStore`, `DockerSocketRecovery` and
`CatalogSources` also have a `DeliverAll` that runs the handlers of any sequence of events and ends in
the `Run` of that sequence, so the theorems about runs hold of every history of those objects; the
workers of a `CatalogSources` run the methods of `SourceJob`. `DockerOperationState` is tied to its
state machine method by method.

A function that only computes says nothing by itself, so each transition also has theorems that do not
mention it: what an event does to each table, field by field (`FederationStatus.TablesMove`,
`CatalogBrowse.TablesMove`, `CleanupExclusion.StageMoves`), and what the history of events means for
the state it leaves (`DirectStatusExactly`, `OutcomeOfEachRun`, `StoryIsHeard`, `WritesExactly`,
`TripOnlyWhenFull`, `FileDecidesEntry`, `ReportsExactly`, `EachCategoryOnce`, `ProviderMeans`).

| file | source | subject |
|---|---|---|
| NetworkNamespace.dfy, NetworkNamespaceMeaning.dfy, RestartPlan.dfy | backend/compose-network-namespace.ts | which service a network mode names, consumer closure, restart order, cycles, interrupted runs |
| NetworkRepair.dfy | backend/compose-network-repair.ts | which services may be recreated after their network disappeared |
| FederationState.dfy, FederationStatus.dfy, FederationLateEvents.dfy, FederationRecovery.dfy, FederationShutdown.dfy, AgentManager.dfy | backend/agent-manager.ts, backend/federation-health.ts | shared transports, circuit breaker, the status shown, late callbacks, availability alerts, shutdown |
| IngressGuard.dfy | backend/federation-health.ts | sliding-window limiter with blocks |
| DeploymentRows.dfy, DeploymentJournal.dfy, DeploymentInvariants.dfy, DeploymentSafety.dfy, DeploymentCapacity.dfy, DeploymentRetries.dfy, DeploymentOutcomes.dfy, DeploymentResults.dfy, DeploymentHistory.dfy, DeploymentStore.dfy | backend/deployment-progress.ts | deployment journal: reservation, eviction, write queue, crash and reload, retries, how each run ends and what is written when |
| SocketRecovery.dfy | backend/docker-socket-recovery.ts | restart watchdog |
| CleanupExclusion.dfy | backend/docker-operation-state.ts, backend/docker-prune-service.ts | builds against cleanups |
| CatalogWorkers.dfy, CatalogBrowse.dfy | backend/catalog-sources.ts | four workers on one cursor, busy sources, index revisions |
| ImageInventory.dfy | backend/docker-image-inventory.ts | batched inspection with fallback |
| ContainerListing.dfy | backend/container-files.ts | printer and parser of directory listings |
| AgentMesh.dfy | backend/agent-mesh.ts | mesh catalogues |

Docker, sockets, HTTP, the database and the file system are oracles: their answers are parameters
of events or functions of a command counter, so theorems hold for all answers. Time is an explicit
parameter. Random identifiers are fresh numbers, never reused across crashes. `rename` replaces
the journal atomically, a crash leaves the temporary file torn.

Four things one might expect do not hold for every input. For each there is a concrete history in
which it fails and the exact condition under which it holds:

- At most `maxAttempts` attempts are allowed in any window: exactly when `maxAttempts` is 0 or the
  block lasts at least as long as the window (`WindowBoundExactly`; it fails in `ShortBlockLeaks`).
  The defaults meet the condition.
- A connection made after `shutdown` starts below the failure threshold: exactly when no circuit was
  open with a full failure count on an endpoint that is not a reverse one
  (`NextClientStartsBelowExactly`; it fails in `ShutdownLeaksAFullCount`). `shutdown` clears the timer
  of such an endpoint and keeps its count; `AfterShutdown` says what holds regardless.
- Holding the cleanup lock excludes builds: exactly when every build that was running when the lock
  was taken has ended (`OnlyOlderBuildsUnderTheLock`; it fails in `LockAloneDoesNotExcludeBuilds`).
  The check before each category closes the gap (`NoBuildAfterClearance`).
- The deployment history has at most 100 rows and each running row belongs to a run in progress:
  exactly as long as every admitted run finds room, that is, at most 100 of the rows belong to
  active stacks (`HistoryIsBoundedExactly`). A run that finds none fails and leaves its row behind
  as running, and only such a run does (`BeginOrphansExactly`; it happens in
  `HundredAndFirstRunIsOrphaned`).

## Model

| member | source | states |
|---|---|---|
| NetworkNamespace.ClosureIsLeast | backend/compose-network-namespace.ts:50-54 | the consumer closure of a request lies in every consumer-closed set that holds the request |
| NetworkNamespace.TargetListUnique | backend/compose-network-namespace.ts:99-112 | there is exactly one list that starts with the de-duplicated request, holds the closure once each and is breadth first with sorted consumers |
| NetworkNamespace.IndexContainers | backend/compose-network-namespace.ts:69-74 | a trimmed container name belongs to the last service that declares it |
| NetworkNamespace.IndexConsumers | backend/compose-network-namespace.ts:76-97 | the table gives each provider exactly the services whose namespace provider it is, over both edge kinds |
| NetworkNamespace.AddConsumers | backend/compose-network-namespace.ts:102-109 | pushes exactly the consumers not seen before, in order, once |
| NetworkNamespace.PushConsumers | backend/compose-network-namespace.ts:101-110 | one worklist round keeps the frontier invariant: within the closure, breadth first, closed under the processed prefix |
| NetworkNamespace.CloseOverConsumers | backend/compose-network-namespace.ts:99-111 | terminates with the unique breadth-first list of the least closure |
| NetworkNamespace.ResolveTargets | backend/compose-network-namespace.ts:55-112 | succeeds iff every requested service exists, with that list; otherwise reports the first unknown service |
| NetworkNamespaceMeaning.TrimMeans | backend/compose-network-namespace.ts:71-73 | trimming removes only space, and none is left at either end |
| NetworkNamespaceMeaning.DeclaresMeans | backend/compose-network-namespace.ts:71-73 | a service declares a container name iff that is its container name without the space around it, and not empty |
| NetworkNamespaceMeaning.ContainerOwnerMeans | backend/compose-network-namespace.ts:69-74 | a container name belongs to the service at i iff i declares it, apart from space around it, and no later service does |
| NetworkNamespaceMeaning.ServiceModeMeans | backend/compose-network-namespace.ts:82-86 | service:p names p iff p is a non-empty service of the model |
| NetworkNamespaceMeaning.ContainerModeMeans | backend/compose-network-namespace.ts:87-90 | container:t names the non-empty service at i iff it is the last one whose trimmed container name is t |
| NetworkNamespaceMeaning.OtherModesNameNone | backend/compose-network-namespace.ts:78-93 | any other mode, or none, names no service |
| NetworkNamespaceMeaning.ProviderMeans | backend/compose-network-namespace.ts:76-97 | over the service fields: c consumes p iff p is not empty and the network mode of c names p or the container p declares last |
| NetworkNamespaceMeaning.TargetsIncludeWhoJoins | backend/compose-network-namespace.ts:99-111 | whoever joins the namespace of a target in this sense is a target too |
| NetworkNamespaceMeaning.LexLessMeans | backend/compose-network-namespace.ts:102-102 | the sorting order: the first difference decides, a proper prefix comes first |
| RestartPlan.Runner.Run | backend/compose-network-namespace.ts:140-141 | each command is recorded once, in order, with its own answer |
| RestartPlan.ConsumersOfOne | backend/compose-network-namespace.ts:147-150 | the closure of one target without itself is exactly its other dependents |
| RestartPlan.BuildProviders | backend/compose-network-namespace.ts:146-151 | each target is given exactly the other targets it depends on, directly or transitively |
| RestartPlan.Planner.Visit | backend/compose-network-namespace.ts:159-173 | a refused visit implies a cycle; a successful one keeps the order duplicate free and provider closed |
| RestartPlan.PlanOrder | backend/compose-network-namespace.ts:156-175 | no plan iff two distinct targets lie in each other's consumer closure; otherwise a permutation of the closure with providers first |
| RestartPlan.OrderExcludesCycle | backend/compose-network-namespace.ts:160-162 | a providers-first order of the targets exists only without such a pair |
| RestartPlan.RestartedPrefixIsProviderClosed | backend/compose-network-namespace.ts:174-180 | every prefix of a plan contains the providers of its services |
| RestartPlan.RunInOrder | backend/compose-network-namespace.ts:176-180 | the commands issued are the plan up to completion or to the first refusal |
| RestartPlan.RestartComposeServices | backend/compose-network-namespace.ts:137-181 | result and commands of every case: the first unknown service, nothing selected, cycle before any command, single restart, ordered restarts |
| RestartPlan.ConsumersRestartAfterTheirProviders | backend/compose-network-namespace.ts:174-180 | however a run ended, before a consumer was touched its providers had been restarted successfully, and nothing was restarted twice |
| NetworkRepair.StaleAmongMeaning | backend/compose-network-repair.ts:40-59 | the services collected are exactly the enabled ones seen with a stopped container whose network is gone |
| NetworkRepair.InspectionMeaning | backend/compose-network-repair.ts:29-38 | an inspection succeeds iff the listing does and every listed container has a valid identifier and is read; it gives the state of each |
| NetworkRepair.Docker.Inspect | backend/compose-network-repair.ts:29-38 | the listing and the loop of reads compute that answer |
| NetworkRepair.InspectOnce | backend/compose-network-repair.ts:24-39 | a service is asked about at most once; later uses see the first answer |
| NetworkRepair.ScanContainer | backend/compose-network-repair.ts:42-58 | the first lost network that is not configured or does not exist again is refused, otherwise every loss is recorded |
| NetworkRepair.ScanService | backend/compose-network-repair.ts:42-58 | the same over all containers of one service, in order |
| NetworkRepair.ExamineServices | backend/compose-network-repair.ts:40-59 | all enabled services examined in order; a refusal names the first service that cannot be repaired |
| NetworkRepair.CheckStopped | backend/compose-network-repair.ts:64-68 | no target is seen running, or the first one that is |
| NetworkRepair.NetworkRepairTargets | backend/compose-network-repair.ts:14-70 | the whole outcome over any answers Docker gives while it changes, each error naming the first offender |
| NetworkRepair.RecreationIsJustified | backend/compose-network-repair.ts:13-13 | every planned target was inspected once and seen stopped, depends on an enabled service that lost its network, and all its consumers are planned too |
| NetworkRepair.PlanExactlyWhenSafe | backend/compose-network-repair.ts:13-69 | a plan is made iff no read failed, no observed loss is beyond restoring and no observed target runs |
| NetworkRepair.LostMeans | backend/compose-network-repair.ts:44-51 | a network is lost iff the container is stopped and remembers an id, reported or the 64 digits of its mode, that the inventory has no more |
| NetworkRepair.PlanRestoresNetworks | backend/compose-network-repair.ts:40-59 | with a plan, every network that an examined service lost is declared by it and exists again under its name, and the service is a target |
| NetworkRepair.RefusalNamesTheNetwork | backend/compose-network-repair.ts:52-57 | a refusal names an enabled service and a network it lost that it does not declare or that does not exist |
| IngressGuard.FederationIngressGuard.RegisterAttempt | backend/federation-health.ts:88-130 | the decision and new state of the key; other keys keep theirs |
| IngressGuard.KeysAreIndependent | backend/federation-health.ts:79-90 | a key's state after any calls is that of its own calls alone |
| IngressGuard.AlwaysAccounted | backend/federation-health.ts:103-110 | the stored attempts cover every allowed attempt still inside the window, across block episodes |
| IngressGuard.WindowIsBounded | backend/federation-health.ts:108-130 | with windowMs <= blockMs no window (t - windowMs, t] holds more than maxAttempts allowed attempts |
| IngressGuard.ShortBlockLeaks | backend/federation-health.ts:103-114 | with blockMs < windowMs a concrete burst gets maxAttempts + 1 through one window |
| IngressGuard.WindowBoundExactly | backend/federation-health.ts:79-131 | the bound holds for all histories iff maxAttempts is 0 or windowMs <= blockMs |
| IngressGuard.RefusedDuringBlock | backend/federation-health.ts:94-101 | during a block everything is refused untripped, with the exact remaining time, and nothing changes |
| IngressGuard.TripsAreApart | backend/federation-health.ts:112-121 | two trips of one key are at least blockMs apart |
| IngressGuard.RefusalHasATrip | backend/federation-health.ts:94-121 | every refusal is a trip or falls within blockMs of one |
| IngressGuard.BlockHasATrip | backend/federation-health.ts:112-114 | every block was started by a trip, which fixes its end |
| IngressGuard.TripOnlyWhenFull | backend/federation-health.ts:108-114 | for every clock and limits, a trip finds at least maxAttempts attempts allowed within the closed window before it |
| IngressGuard.RefusalOnlyWhenFull | backend/federation-health.ts:94-121 | every refusal goes back to such a trip: a window that was really full |
| AgentManager.FederationAvailabilityAlertTracker.ShouldNotify | backend/federation-health.ts:58-64 | notifies iff not suppressed and no incident is active, and then opens one |
| AgentManager.FederationAvailabilityAlertTracker.MarkOnline | backend/federation-health.ts:66-68 | closes the incident of that endpoint only |
| AgentManager.FederationAvailabilityAlertTracker.Forget | backend/federation-health.ts:70-72 | closes the incident of that endpoint only |
| AgentManager.AgentManager.Disconnect | backend/agent-manager.ts:616-631 | the whole new state: every table forgets the endpoint, the incident is closed, other endpoints are untouched |
| AgentManager.AgentManager.OpenReconnectCircuit | backend/agent-manager.ts:271-330 | nothing when a timer runs or no config is stored; otherwise client dropped, alert if due, timer set |
| AgentManager.AgentManager.Connect | backend/agent-manager.ts:447-502 | changed credentials disconnect first; a timer or a client stops it; otherwise one new client with the stored config |
| AgentManager.AgentManager.OnLoginAnswer | backend/agent-manager.ts:509-539 | late answers are ignored; success resets failures and the incident, refusal drops the client |
| AgentManager.AgentManager.OnConnectFailure | backend/agent-manager.ts:542-562 | counts the failure and opens the circuit at the threshold, for the current client only |
| AgentManager.AgentManager.OnReconnectFailed | backend/agent-manager.ts:574-582 | opens the circuit, for the current client only |
| AgentManager.AgentManager.OnDisconnect | backend/agent-manager.ts:584-590 | marks the endpoint logged out, for the current client only |
| AgentManager.AgentManager.OnInfo | backend/agent-manager.ts:598-613 | drops the current client of an unsupported version |
| AgentManager.AgentManager.OnCircuitRetry | backend/agent-manager.ts:310-326 | clears timer and failures, then connects with the latest stored config |
| AgentManager.AgentManager.Attach | backend/agent-manager.ts:73-79 | the new reverse socket replaces and disconnects the previous one |
| AgentManager.AgentManager.OnReverseDisconnect | backend/agent-manager.ts:105-110 | removes the endpoint only if the socket is still the registered one |
| AgentManager.AgentManager.RefreshFromDatabase | backend/agent-manager.ts:143-185 | a run of disconnects and connects after which listed agents are settled, unlisted endpoints are gone, and clients whose credentials did not change are kept |
| AgentManager.AgentManager.ShutDown | backend/agent-manager.ts:187-199 | timers cleared, then every endpoint with a client or a reverse agent disconnected exactly once, with the state and the notices this leaves |
| AgentManager.AgentManager.DeliverAll | backend/agent-manager.ts:504-613 | the handlers of any sequence of events, one after the other, make a run of the state machine |
| FederationState.StepKeepsInv | backend/agent-manager.ts:271-630 | every event keeps the transport, client and reverse invariants of every endpoint |
| FederationState.RunKeepsInv | backend/agent-manager.ts:271-630 | so does every run |
| FederationState.ReachableTransport | backend/agent-manager.ts:271-330 | in every reachable state: timer excludes client, both imply a config, login implies a client, a client has fewer than the threshold of failures and the stored credentials |
| FederationState.NoFailureIffOnline | backend/agent-manager.ts:116-124 | in every reachable state connectionFailure is null iff statusFor is online |
| FederationStatus.TablesMove | backend/agent-manager.ts:271-630 | what each event does to the client, retry, failure count, refusal, stored config and reverse socket of an endpoint, table by table |
| FederationStatus.UpExactly | backend/agent-manager.ts:504-590 | the current client is connected iff its transport came up and has not gone down since |
| FederationStatus.AcceptedExactly | backend/agent-manager.ts:509-519 | an endpoint counts as logged in iff its current client was accepted and has not gone down since |
| FederationStatus.RefusedExactly | backend/agent-manager.ts:520-539 | the latest answer to a login of the then current client decides whether the endpoint counts as refused |
| FederationStatus.DirectStatusExactly | backend/agent-manager.ts:222-237 | in every reachable state a direct endpoint is online iff its current client is up and was accepted since, offline iff it has none, and the failure is authentication iff the latest answer was a refusal |
| FederationStatus.ReverseStatusExactly | backend/agent-manager.ts:222-237 | a reverse endpoint is online iff the socket attached last has neither gone down nor been forgotten since |
| FederationStatus.LatestIsStored | backend/agent-manager.ts:447-470 | the stored config is the one given last since the endpoint was last disconnected |
| FederationStatus.NoticesExactly | backend/agent-manager.ts:271-330 | an alert, a login or a disconnect is announced exactly when a circuit opens unsuppressed and unreported, a login succeeds, or the endpoint is forgotten |
| FederationState.SupersededClientIsInert | backend/agent-manager.ts:504-613 | a callback of a client that is not current changes no shared state |
| FederationState.SupersededForever | backend/agent-manager.ts:483-502 | a client that stopped being current never becomes current again |
| FederationLateEvents.ReplacedForever | backend/agent-manager.ts:105-110 | a reverse socket that is not registered never is again in any continuation, and its disconnect then changes no registration |
| FederationLateEvents.LateReverseDisconnectIsHarmless | backend/agent-manager.ts:73-110 | in every reachable state the disconnect of a replaced socket, after any further events, changes the status of no endpoint, and a socket serving its endpoint then stays online |
| FederationLateEvents.LateCallbacksCanBeErased | backend/agent-manager.ts:504-613 | erasing every later callback of a superseded client from a run changes no table, alert, other transport or status |
| FederationState.EndpointsAreIndependent | backend/agent-manager.ts:447-631 | an event of one endpoint changes no entry of another |
| FederationState.AlertsAlwaysTracked | backend/agent-manager.ts:292-302 | the open incidents are exactly the endpoints whose last notice is an alert, and alerts are separated |
| FederationState.AlertsNeedRecovery | backend/agent-manager.ts:292-302 | between two alerts of one endpoint there is a successful login or an explicit disconnect |
| FederationState.SuppressedEndpointsAreSilent | backend/agent-manager.ts:292-302 | an alert is raised only when a circuit opens for a stored config that is not suppressed |
| FederationRecovery.BecomesIdleExactly | backend/agent-manager.ts:271-613 | an event leaves a configured endpoint without client and without pending retry, where it had one, iff it refuses the current client |
| FederationRecovery.IdleOnlyAfterRefusal | backend/agent-manager.ts:271-613 | in every reachable state an endpoint is idle like that iff some event refused its current client by login or version and it has been idle since |
| FederationShutdown.ShutdownKeepsInvExactly | backend/agent-manager.ts:187-199 | clearing the timers of shutdown keeps the invariant iff no direct endpoint waiting on a timer has reached the failure threshold |
| FederationShutdown.NextClientStartsBelowExactly | backend/agent-manager.ts:187-199 | every connection made after a shutdown starts below the threshold iff that is so |
| FederationShutdown.ShutdownLeaksAFullCount | backend/agent-manager.ts:187-199 | six connection errors, a shutdown and a connection give a client with six counted failures |
| FederationShutdown.AfterShutdown | backend/agent-manager.ts:187-199 | in every continuation after a shutdown the transport clauses hold and only endpoints whose circuit was open and full may exceed the threshold |
| DeploymentRows.RowHistory | backend/deployment-progress.ts:149-168 | after any reports and output a row holds the reported phases without repetition, all but the last closed, the last 65536 characters of everything emitted, and saved as first given or after any phase past save |
| DeploymentRows.EndKeepsOk | backend/deployment-progress.ts:169-178 | ending a run leaves a well-formed row, with every step closed on completion |
| DeploymentRows.EvictLoop | backend/deployment-progress.ts:140-148 | the loop computes Evict: rows and whether it succeeded |
| DeploymentRows.EvictsOldestFirst | backend/deployment-progress.ts:140-148 | once an inactive row is kept every later row is kept, and exactly 100 rows remain when eviction was needed and succeeded |
| DeploymentRows.EvictionFailsExactly | backend/deployment-progress.ts:140-146 | eviction fails iff more than 100 rows belong to active stacks; active rows are never dropped |
| DeploymentRows.LoadKeepsAll | backend/deployment-progress.ts:51-68 | a journal written by the store loads back row by row, running ones as interrupted |
| DeploymentRows.LoadIsWellFormed | backend/deployment-progress.ts:51-68 | any file loads to one row per stack, each a reopened row of the file |
| DeploymentRows.EndedMeans | backend/deployment-progress.ts:169-178 | a run that returns is completed, its last step closed at that moment and its output kept; one that throws is failed with the error at the end of its output |
| DeploymentRows.TailMeans | backend/deployment-progress.ts:167-177 | the kept output is the longest suffix of at most 65536 characters |
| DeploymentRows.SnapshotMeans | backend/deployment-progress.ts:79-83 | a snapshot keeps everything of each row but its output |
| DeploymentStores.DeploymentStore.Reserve | backend/deployment-progress.ts:109-113 | accepted iff the name is valid and the stack is not active |
| DeploymentStores.DeploymentStore.Load | backend/deployment-progress.ts:40-76 | missing, unreadable, oversized and readable files |
| DeploymentStores.DeploymentStore.LoadLoop | backend/deployment-progress.ts:51-68 | the loop computes LoadRows of the rows kept |
| DeploymentStores.DeploymentStore.Begin | backend/deployment-progress.ts:115-165 | the synchronous part of run: retry check, new row, eviction, first report |
| DeploymentStores.DeploymentStore.Report | backend/deployment-progress.ts:149-163 | a repeated phase changes nothing; a new one closes the last step and persists |
| DeploymentStores.DeploymentStore.Output | backend/deployment-progress.ts:166-168 | appends to the output and keeps its tail |
| DeploymentStores.DeploymentStore.Finish | backend/deployment-progress.ts:169-182 | completed or failed row, persisted |
| DeploymentStores.DeploymentStore.StartAction | backend/deployment-progress.ts:164-168 | the action starts only after the first snapshot was written; a failed write ends the run |
| DeploymentStores.DeploymentStore.UpdateRow | backend/deployment-progress.ts:149-161 | the row after a report, updated field by field |
| DeploymentStores.DeploymentStore.Return | backend/deployment-progress.ts:164-172 | the action has returned: the run counts as such before its row is completed |
| DeploymentStores.DeploymentStore.Release | backend/deployment-progress.ts:183-185 | the stack is released once the last write has finished |
| DeploymentStores.DeploymentStore.WriteTemp | backend/deployment-progress.ts:84-88 | the head of the queue fills the temporary file or fails |
| DeploymentStores.DeploymentStore.Rename | backend/deployment-progress.ts:84-92 | the journal becomes the temporary file, or stays; the next write follows either way |
| DeploymentStores.DeploymentStore.DeliverAll | backend/deployment-progress.ts:100-186 | any sequence of events, crashes included, handled one after the other, is a run of the state machine |
| DeploymentJournal.RunKeepsWrites | backend/deployment-progress.ts:78-92 | in every run with crashes and write failures the file is the initial one or one complete snapshot, and writes finish in the order of persist calls |
| DeploymentInvariants.StepKeepsCore | backend/deployment-progress.ts:100-186 | every event keeps: one call per active stack, good tables and snapshots, the row of each call in progress in the table |
| DeploymentInvariants.RunKeepsCore | backend/deployment-progress.ts:100-186 | so does every run from a good journal, and the file stays good |
| DeploymentSafety.NoFalseSuccess | backend/deployment-progress.ts:164-178 | a completed row, in memory or in the file, belongs to a run whose action returned |
| DeploymentSafety.LiveRowTellsItsHistory | backend/deployment-progress.ts:100-168 | at most one run per stack; its row is never evicted and records exactly what its action reported and emitted |
| DeploymentSafety.CrashThenLoad | backend/deployment-progress.ts:40-92 | after a crash at any point the last landed snapshot is reloaded, unless it exceeds the size limit |
| DeploymentSafety.ReopenedOutcomes | backend/deployment-progress.ts:58-67 | reloading keeps every finished outcome, turns running into interrupted and adds nothing |
| DeploymentCapacity.AdmissionSucceeds | backend/deployment-progress.ts:140-148 | with at most 100 active stacks a new run always finds room |
| DeploymentCapacity.BeginOrphansExactly | backend/deployment-progress.ts:138-148 | a run leaves its row behind as running, unowned, in a table over 100 rows iff more than 100 rows would belong to active stacks |
| DeploymentCapacity.StepKeepsTidyExactly | backend/deployment-progress.ts:138-186 | an event keeps the bounds and the ownership of running rows iff it does not admit a run without room |
| DeploymentCapacity.HistoryIsBoundedExactly | backend/deployment-progress.ts:138-186 | over any history both hold throughout iff every admitted run found room |
| DeploymentCapacity.HistoryIsBounded | backend/deployment-progress.ts:138-148 | while at most 100 runs are active, table and snapshots have at most 100 rows and running rows belong to runs in progress |
| DeploymentCapacity.HundredAndFirstRunIsOrphaned | backend/deployment-progress.ts:140-148 | a history from an empty journal that leaves such a row behind |
| DeploymentOutcomes.FinishedRowsAreFrozen | backend/deployment-progress.ts:138-182 | no event rewrites the row of a finished run in memory; it stays as it is or is removed |
| DeploymentOutcomes.WrittenOutcomeIsFinal | backend/deployment-progress.ts:58-92 | once a finished run is in a landed snapshot, every later table, snapshot and journal file shows it with that outcome or not at all, across crashes |
| DeploymentResults.ReturnCompletes | backend/deployment-progress.ts:169-171 | in every reachable state, when the action of a run returns its row is completed and its last step ends then |
| DeploymentResults.ThrowFails | backend/deployment-progress.ts:172-176 | when it throws, its row is failed and its output is the tail of everything emitted and the error |
| DeploymentResults.StartsExactly | backend/deployment-progress.ts:164-168 | the action starts iff the first snapshot reached the file; if that write failed the run is failed |
| DeploymentResults.BeginsExactly | backend/deployment-progress.ts:115-137 | with room, a run begins iff its stack shows the expected saved run as failed or interrupted, or none is expected |
| DeploymentResults.LoadsExactly | backend/deployment-progress.ts:40-76 | loading succeeds iff there is no journal or one within the size limit |
| DeploymentResults.ReleasedIsWritten | backend/deployment-progress.ts:183-185 | a stack is released exactly by the release after its last write finished |
| DeploymentResults.FinishIsWritten | backend/deployment-progress.ts:169-182 | the last write of a run shows it completed if its action returned and failed if it did not |
| DeploymentResults.OutcomeOfEachRun | backend/deployment-progress.ts:164-182 | over any history, the last write of a run shows completed iff its action has returned |
| DeploymentResults.SavedOutcomeIsFinal | backend/deployment-progress.ts:164-186 | a run whose last write succeeded is shown with that outcome, or not at all, ever after |
| DeploymentResults.CrashShowsInterrupted | backend/deployment-progress.ts:58-92 | a crash while an action runs makes the next process show the run as interrupted |
| DeploymentHistory.StoryIsHeard | backend/deployment-progress.ts:149-168 | every report and output of the action of a run, and nothing else, is part of the story its row tells |
| DeploymentHistory.WritesExactly | backend/deployment-progress.ts:78-92 | in every reachable state a snapshot is queued exactly when a run begins, enters another phase or ends |
| DeploymentHistory.WriterExactly | backend/deployment-progress.ts:84-92 | in every reachable state the first write ends exactly when its temporary file fails or its rename is tried, and the file changes exactly when the rename succeeds |
| DeploymentHistory.ReservesExactly | backend/deployment-progress.ts:109-113 | a run is reserved iff the name has 1 to 200 of the allowed characters and no run is in progress on the stack |
| DeploymentHistory.LoadShowsTheNewest | backend/deployment-progress.ts:51-68 | of a journal with one row per stack exactly the last hundred rows are shown, in order |
| DeploymentRetries.StartKeepsRetries | backend/deployment-progress.ts:116-137 | once a retry starts, the table and every snapshot from its first write on lack the retried run |
| DeploymentRetries.StepKeepsRetries | backend/deployment-progress.ts:116-182 | every event keeps that, including crash and reload |
| DeploymentRetries.RetriedAtMostOnce | backend/deployment-progress.ts:116-137 | over any history a given run is retried at most once |
| SocketRecovery.DockerSocketRecovery.Check | backend/docker-socket-recovery.ts:93-99 | starts a probe unless disabled, checking or stopped |
| SocketRecovery.DockerSocketRecovery.ResumeAfterProbe | backend/docker-socket-recovery.ts:100-126 | all branches on the probe result, up to asking for blockers |
| SocketRecovery.DockerSocketRecovery.ResumeAfterBlocked | backend/docker-socket-recovery.ts:127-136 | deferred, stopped meanwhile, or restart |
| SocketRecovery.DockerSocketRecovery.Fail | backend/docker-socket-recovery.ts:137-142 | a failed question defers and ends the check |
| SocketRecovery.DockerSocketRecovery.Report | backend/docker-socket-recovery.ts:86-91 | a message is reported only when it differs from the last one |
| SocketRecovery.AlwaysRemembers | backend/docker-socket-recovery.ts:49-144 | on every trace: armed iff a ready was seen, failures count the unavailable results since the last ready or configuration error, at most one restart |
| SocketRecovery.DockerSocketRecovery.DeliverAll | backend/docker-socket-recovery.ts:93-144 | any sequence of events handled by a new object is a run of the state machine |
| SocketRecovery.ReportsChange | backend/docker-socket-recovery.ts:86-91 | no two consecutive reports are equal |
| SocketRecovery.StoppedForever | backend/docker-socket-recovery.ts:81-84 | after a stop nothing is restarted any more |
| SocketRecovery.RestartIsJustified | backend/docker-socket-recovery.ts:116-136 | a restart needs an earlier ready, the configured number of unavailable results since, no blocker, no work and no stop |
| SocketRecovery.RestartsAtMostOnce | backend/docker-socket-recovery.ts:134-136 | a second restart never happens |
| SocketRecovery.EnoughFailuresRestart | backend/docker-socket-recovery.ts:116-136 | after any history, a check that brings the unavailable results since an earlier ready to the configured number restarts the process when nothing runs |
| SocketRecovery.OutageRestarts | backend/docker-socket-recovery.ts:120-136 | a history in which that happens: one ready, then that many failing checks |
| SocketRecovery.ReportsExactly | backend/docker-socket-recovery.ts:86-142 | each event reports exactly the message due after the probe answers so far, unless it was the last one already |
| SocketRecovery.PhasesExactly | backend/docker-socket-recovery.ts:93-142 | a check waits from its call to the answer, asks for permission iff the unavailable answers are enough, and every other answer ends it |
| CleanupExclusion.CleanupExecutionLock.TryAcquire | backend/docker-operation-state.ts:12-18 | true iff it was free; held afterwards |
| CleanupExclusion.DockerOperationState.BeginBuild | backend/docker-operation-state.ts:46-50 | refused iff a cleanup holds the lock |
| CleanupExclusion.DockerOperationState.EndBuild | backend/docker-operation-state.ts:53-55 | one build less |
| CleanupExclusion.DockerOperationState.TryStartDockerCleanup | backend/docker-operation-state.ts:62-67 | refused iff an update is active or the lock is held; builds are not looked at |
| CleanupExclusion.DockerOperationState.FinishDockerCleanup | backend/docker-operation-state.ts:69-71 | the lock is free, builds are untouched |
| CleanupExclusion.LockAloneDoesNotExcludeBuilds | backend/docker-operation-state.ts:46-67 | a cleanup can take the lock while a build runs |
| CleanupExclusion.OnlyOlderBuildsUnderTheLock | backend/docker-operation-state.ts:46-71 | while a cleanup holds the lock the builds in flight are exactly those running when it took the lock that have not ended since |
| CleanupExclusion.RunKeepsSafe | backend/docker-prune-service.ts:525-589 | in every interleaving: the lock is held by exactly one cleanup, the counter equals the builds in flight, and a cleared cleanup sees none |
| CleanupExclusion.NoBuildAfterClearance | backend/docker-prune-service.ts:299-348 | from the first passed blocker check to the release no build is active |
| CleanupExclusion.RunningBuildHoldsCategoriesBack | backend/docker-prune-service.ts:141-146 | as long as a build runs no category of any cleanup passes |
| CleanupExclusion.AdmissionExactly | backend/docker-prune-service.ts:525-543 | in every reachable state a build starts iff no cleanup is under way, and a cleanup iff none is and no update is active |
| CleanupExclusion.StageMoves | backend/docker-prune-service.ts:299-348 | the next stage of a cleanup, its categories left and whether one has passed, for every event |
| CleanupExclusion.EachCategoryOnce | backend/docker-prune-service.ts:299-348 | while a cleanup runs, the categories left and those refused or done make up what it started with |
| CatalogWorkers.SourceJob.TakeNext | backend/catalog-sources.ts:286-291 | a worker takes the shared cursor, or stops; a timeout is recorded as a failure |
| CatalogWorkers.SourceJob.Complete | backend/catalog-sources.ts:292-305 | a reply fills or fails its own item and counts it |
| CatalogWorkers.EveryScheduleConserves | backend/catalog-sources.ts:284-311 | for any schedule: loaded plus in flight is the cursor, failed counts failed items, items keep their index, no two workers hold one file |
| CatalogWorkers.FinishedJobIsComplete | backend/catalog-sources.ts:284-311 | when all workers are done every item is loaded, failed or parsed exclusively, and no file was fetched twice |
| CatalogWorkers.SchedulesAreBounded | backend/catalog-sources.ts:286-307 | every schedule is finite, by a bound on its length |
| CatalogWorkers.FetchedUnlessTimedOut | backend/catalog-sources.ts:286-294 | a file is requested iff a worker claimed it before the time limit, whatever the order of the workers; the cursor counts the claims |
| CatalogWorkers.FileDecidesEntry | backend/catalog-sources.ts:286-305 | an entry is parsed iff its file was read, and failed iff it was not or was not requested in time |
| CatalogBrowse.CatalogSources.BeginBrowse | backend/catalog-sources.ts:182-211 | cached answer, busy, or a new revision being loaded |
| CatalogBrowse.CatalogSources.ResumeWithList | backend/catalog-sources.ts:247-312 | too many files is an error; otherwise the index is installed loading |
| CatalogBrowse.CatalogSources.ResumeWithCatalogue | backend/catalog-sources.ts:212-246 | a catalogue answered in one piece is installed complete |
| CatalogBrowse.CatalogSources.ResumeWithError | backend/catalog-sources.ts:313-316 | the source is freed and the old index stays |
| CatalogBrowse.CatalogSources.MoveWorker | backend/catalog-sources.ts:285-307 | a worker of a loading source takes a file or gets its reply, on the job of the stored index |
| CatalogBrowse.CatalogSources.DeliverAll | backend/catalog-sources.ts:182-317 | any sequence of events, worker moves included, handled one after the other, is a run of the state machine |
| CatalogBrowse.CatalogSources.FinishLoading | backend/catalog-sources.ts:308-311 | the source is freed when all workers are done |
| CatalogBrowse.RunKeepsInvariants | backend/catalog-sources.ts:182-317 | in every run at most two sources are busy, exactly those waiting or loading, and every job is conserved |
| CatalogBrowse.LoadingIsNotReplaced | backend/catalog-sources.ts:189-200 | no event replaces an index that is still loading |
| CatalogBrowse.RevisionsGrow | backend/catalog-sources.ts:189-211 | the revision of a source never goes back |
| CatalogBrowse.StaleDraftIsRefused | backend/catalog-sources.ts:319-333 | a draft for a replaced revision is refused ever after |
| CatalogBrowse.TablesMove | backend/catalog-sources.ts:182-317 | what each event does to the busy mark, the waiting request and the index of a source |
| CatalogBrowse.BrowseMeans | backend/catalog-sources.ts:189-211 | in every reachable state: a new load starts iff nothing usable is stored and there is room; a cached index dates from a load that was started then, and is under a minute old if a refresh was asked |
| ImageInventory.InspectOneByOne | backend/docker-image-inventory.ts:220-233 | the in-order list of images present when asked, one command each; other failures are errors |
| ImageInventory.InspectImageBatch | backend/docker-image-inventory.ts:204-235 | explained by the same one-by-one observation, with fallback |
| ImageInventory.InspectDockerImages | backend/docker-image-inventory.ts:237-244 | so is the whole listing for every batch size, with a bound on the commands; it fails iff a command failed otherwise |
| ImageInventory.FixedDaemonIsExact | backend/docker-image-inventory.ts:217-233 | on a fixed daemon the result is the in-order list of present images |
| ImageInventory.ShrinkingDaemonIsBracketed | backend/docker-image-inventory.ts:217-233 | when images only disappear the result lies between the lists at the end and at the start, as subsequences |
| ImageInventory.BatchSizeIsInvisible | backend/docker-image-inventory.ts:237-244 | two runs on a fixed daemon agree whatever their batch sizes |
| ImageInventory.InspectNextBatch | backend/docker-image-inventory.ts:239-243 | the next batch extends the observation; with all its images present it takes one command |
| ImageInventory.BatchesMeans | backend/docker-image-inventory.ts:238-241 | the number of commands for images that stay present is the number of full batches rounded up |
| ContainerListing.SplitPrinted | backend/container-files.ts:13-27 | splitting the script's output gives back its fields and one empty field |
| ContainerListing.ParsePrinted | backend/container-files.ts:59-76 | parsing the fields from any position gives the entries left and the right flag |
| ContainerListing.ParseContainerDirectory | backend/container-files.ts:52-80 | the loop computes the recursive parser: entries, sentinel, malformed fields |
| ContainerListing.ListingRoundTrip | backend/container-files.ts:52-80 | every printable listing parses to its first 500 entries, truncated iff there were more; a file named like the sentinel is an entry |
| ContainerListing.ParsesExactly | backend/container-files.ts:59-76 | any fields are read iff every third one starts an entry or is the mark two fields from the end |
| ContainerListing.ParsedInOrder | backend/container-files.ts:66-76 | the entries are then those fields in order, up to the mark or the end |
| AgentMesh.AgentTable.StorePeers | backend/agent-mesh.ts:119-130 | each peer but the own endpoint is stored in place; other rows stay |
| AgentMesh.AgentTable.UpsertMeshPeers | backend/agent-mesh.ts:115-136 | the table becomes the peers but the own endpoint, plus the reverse rows that do not collide |
| AgentMesh.InstalledUnique | backend/agent-mesh.ts:115-136 | that determines the new table |
| AgentMesh.InstalledMeansPeers | backend/agent-mesh.ts:115-136 | its direct rows are exactly the peers; surviving reverse rows are unchanged |
| AgentMesh.InstallIdempotent | backend/agent-mesh.ts:115-136 | installing again changes nothing |
| AgentMesh.ValidateMeshPeers | backend/agent-mesh.ts:55-69 | accepts iff the list is not empty, every peer is valid and endpoints are distinct; a refusal says which, naming the first invalid peer |
| AgentMesh.Mesh.ApplyAll | backend/agent-mesh.ts:207-217 | succeeds iff every remote peer applies its catalogue; otherwise names the first that does not, with exactly the catalogues before it installed, and its own if only the answer got lost |
| AgentMesh.Prepare | backend/agent-mesh.ts:193-205 | the synchronization goes on iff every peer is valid and distinct, there is a remote one, every token was issued and every remote peer authenticates |
| AgentMesh.Mesh.Synchronize | backend/agent-mesh.ts:192-219 | succeeds iff the preparation does and every remote peer answers, and then installs every catalogue; an earlier failure changes none, a later one stops at the first peer without an answer |
| AgentMesh.MeshIsComplete | backend/agent-mesh.ts:200-218 | after success the direct rows of each peer that stays are exactly the other peers that stay, as exchanged; a removed peer has none |
| AgentMesh.SynchronizedMeshIsStable | backend/agent-mesh.ts:207-217 | handing out the same catalogues again changes no instance |
| AgentMesh.EveryInstanceSeesTheSameMesh | backend/agent-mesh.ts:98-113 | after success every instance that stays would start its own synchronization with the same endpoints, those of all peers that stay |
| AgentMesh.MeshPeersMeans | backend/agent-mesh.ts:98-113 | the mesh is this instance and then its direct agents, each once, in storage order and as stored |
| AgentMesh.RowsAfterSynchronization | backend/agent-mesh.ts:119-130 | each row handed out carries the address and name of the peer, its issued token, and the alert suppression it had |
| AgentMesh.WithoutOne | backend/agent-mesh.ts:200-206 | removing a peer takes out that one only and keeps the order of the others |

## Left out

- Names are compared by Unicode characters; JavaScript sorts by UTF-16 code units, which differs only outside the basic plane. Names that collide with inherited object properties, and integer-like keys that JavaScript enumerates first, are not modelled.
- URL, JSON, YAML, semver and regular-expression parsing: models start from parsed values.
- `findComposeServicesByImage`, `composeModelReadError` and the argument builders of targeted recreation: expressions.
- Network repair: reading the network inventory is one answer; Docker's replies are indexed by inspection and read, so they may change between any two commands.
- Federation: `emitToEndpoint`, filtering of reverse payloads, browser broadcasts and their texts, `test`, adding and renaming agents, cooldown of authentication notices, the length of the retry delay, and subscribers.
- AgentManager.AgentManager.ShutDown: does not model the clearing of browser subscribers, which hold no transport state; the order of the disconnects within each of its two loops is any order.
- AgentManager.AgentManager.RefreshFromDatabase: the stored agents are keyed by distinct, non-empty endpoints, as the database guarantees; one refresh runs without a second one in between, as it has no await after reading the list.
- Deployment rows: the `startedAt` and `updatedAt` times of a row, and reports or output that an action still produces after it has returned or thrown.
- DeploymentStores.DeploymentStore.Report: a row is updated as a value of the table, not through an alias held by the running action; the invariant that the row of a run in progress is always in the table makes the two agree.
- DeploymentStores.DeploymentStore.Load: journal entries that are not rows are dropped before the model starts; row states other than the four are not modelled.
- Cleanup: candidate selection, exclusions, grace periods, schedules, heartbeat timing, history file, notification and report texts; image pruning itself is done by a manager that is not part of this model.
- Catalogue: metadata of entries and fetching of a draft's compose file after it is accepted.
- Images: classification of references and the matching of shortened identifiers.
- Container files: path checks, reading of a file and the limit on concurrent reads; sizes are natural numbers given by a conversion function, without the precision limit of floating point.
- AgentMesh.ValidateMeshPeers: trimming and parsing of the raw values come before the model starts; an address that does not parse is not a peer of the model.
- AgentMesh.Mesh.Synchronize: tokens issued before a failed synchronization stay issued on the remote side; only catalogues are modelled. A failure of the local database write is not modelled.
- Watchdog: the polling timer of `start`; any sequence of `check` calls is covered instead.
