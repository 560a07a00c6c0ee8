# Workspace Harbor: verified model of its coordination protocols

Workspace Harbor is a set of short-lived processes that coordinate through lock-protected state files, and one HTTP
server inside the IDE. This project models the parts whose guarantees must hold under every interleaving, crash and
error, and proves those guarantees with Dafny 4.11. `dafny verify dfyconfig.toml` checks all of it.

## How the model is built

* A section that the programs execute under an exclusive file lock is one atomic step: a function from the recorded
  state to the state that is written back, also when the section raises. Unlocked reads, waits, executions and calls
  of the IDE are steps of their own. A run is any sequence of such steps, by any number of processes, with deaths
  and errors anywhere in between.
* Where the program updates state in place, a class holds that state and its methods perform the update with the
  program's own loops; each method is proved to do exactly what the corresponding function says, and the theorems
  are about that function and about runs.
* A process identity is one token that never becomes live again. Clocks, probes of processes and ports, exit codes,
  adapter answers and other programs' interference are inputs that the theorems quantify over.
* Digests are injective, so a digest is modelled by what it digests; `os.replace` is atomic.

## Modules

| module | component |
|---|---|
| `OpenerQueue`, `OpenerRuns` | the launch queue of the opener coordinator: validator, passes, release; refinement of an ideal FIFO; whole runs |
| `OpenerProtocol` | operation records and the opener script that takes operation, launch, readiness, registration and `release-all` |
| `Broker`, `BrokerSafety`, `BrokerDecisions`, `BrokerRuns`, `BrokerFile` | the worktree broker's services, leases, owners, ports and idle times |
| `Lineage` | the owner of a thread, found along its parent chain |
| `CloseEndpoint` | the close request of the lifecycle server: claims, shared futures, joiners |
| `Incidents`, `IncidentRuns` | incident records, the relauncher, and the guarded restart as a whole |
| `Bootstrap` | the bootstrap success cache and its double-checked lock |
| `Handshake` | the chunked reader of the MCP handshake |
| `Journal` | the rotating bridge journal |
| `Deploy` | installation with backup, verification and rollback |
| `Reaper` | cleanup selection, the registry of managed roots, the cleanup loop |
| `Safety` | the close decision, its status report, the report's validator and the recycle filter |
| `Languages` | the languages block of a project configuration and its repair |
| `Wrappers` | options, sorting by an order, and runs as folds over actions, shared by the others |

## What turned out false, and when it holds

* A failed bootstrap run leaves no record only if it got past the removal of the old one: an error before that, such
  as a refused lock file, keeps it (`Bootstrap.FailedRunLeavesNoRecord` is the exact condition,
  `Bootstrap.FailureBeforeRemovalKeepsTheRecord` a run that shows it).
* The size limit of the journal is kept exactly when there is at least one backup
  (`Journal.BoundedExactlyWithBackups`).
* The status validator rejects a well-formed report exactly when an indexing reason accompanies a run, terminal or
  debugger reason, because the two programs list the reasons in different orders (`Safety.ReportAccepted`,
  `Safety.IndexingWithARunIsRefused`). The repository's README.md:39-44 promises inspection, and recycling past such
  activity, without that exception; the model follows the code.
* The outcome of the handshake depends on how its output is cut into chunks exactly when a line that is reached
  exceeds the buffer limit (`Handshake.FoldExactlyWhenLinesFit`).
* As a function of an arbitrary text, writing the languages block twice equals writing it once except exactly for a
  text without a block that ends in a bare carriage return and has no CRLF ending (`Languages.PutPut`,
  `Languages.PutPutFailsAfterABareReturn`). The program reads files in text mode, so no such text reaches it, and
  through the file there is no exception (`Languages.PutPutThroughTheFile`).
* For the same reason a repair does not leave a CRLF file alone: it rewrites the whole file with line feeds. The lines
  outside the block stay byte for byte exactly when they ended in line feeds (`Languages.RepairRewritesEndings`).
* `_close_blocked` reports "closed-blocked" also when its transition failed; report and record agree exactly when the
  incident was prepared, or blocked before (`Incidents.CloseBlockedReport`). In the runs modelled here it was always
  prepared (`IncidentRuns.RelauncherReportsAreTrue`).
* Ownership of a root is enforced over recorded leases. A service whose process died is dropped with its leases, so
  another owner is admitted although a client of the first one still lives (`BrokerSafety.DeadServicesReleaseTheRoot`);
  `BrokerRuns.AnotherOwnerIsAdmitted` has such a run, and `BrokerSafety.AdmissionDecision` is the exact condition.
* "Stop failed" from repair does not mean that nothing happened: exactly for a lease-free pair whose first service is
  unhealthy and can be stopped or dropped, and whose second one is unhealthy and vanishes before its stop, the first
  record is gone, and its process was signalled exactly when it looked owned
  (`BrokerRuns.StopFailedMayFollowPartialRepair`).
* A child and the parent it names resolve to one owner exactly when the child's chain is within the depth limit, or
  the child names itself (`Lineage.SharedOwnerExactly`). A child one link too deep loses the owner of its parent
  (`Lineage.TooDeepChildLosesItsOwner`).

## Model

| member | source | states |
|---|---|---|
| `OpenerQueue.Validate` | bin/workspace_harbor_opener_queue.py:292-336 | the scanning validator accepts exactly the files with complete entries, one ticket order along owner and waiters, and all tickets below `next_sequence` |
| `OpenerQueue.WrittenQueuesAreAccepted` | bin/workspace_harbor_opener_queue.py:292-336 | no queue that satisfies the invariant is ever rejected by the validator |
| `OpenerQueue.PollKeepsInvariant` | bin/workspace_harbor_opener_queue.py:338-419 | a pass of the acquire loop, whatever the probes answer, keeps tickets increasing below the counter, owners distinct, and only the holder launching |
| `OpenerQueue.ReleaseKeepsInvariant` | bin/workspace_harbor_opener_queue.py:421-435 | releasing keeps the same invariant |
| `OpenerQueue.DecideRefinesFifo` | bin/workspace_harbor_opener_queue.py:358-412 | after pruning, a pass appends the caller if absent, grants exactly when it heads the line, and computes its place |
| `OpenerQueue.PollRefinesFifo` | bin/workspace_harbor_opener_queue.py:353-419 | owner-then-waiting behaves as an ideal FIFO: drop the dead, append me if absent; a grant is invisible |
| `OpenerQueue.ReleaseRefinesFifo` | bin/workspace_harbor_opener_queue.py:421-435 | releasing is "remove mine" on the ideal FIFO |
| `OpenerQueue.DropDead` | bin/workspace_harbor_opener_queue.py:338-351 | the pruning loop keeps exactly the live entries in order, or gives up when a probe is unclear |
| `OpenerQueue.JoinOrTake` | bin/workspace_harbor_opener_queue.py:358-412 | the rest of a pass is the decision function |
| `OpenerQueue.InvariantBeyondTheValidator` | bin/workspace_harbor_opener_queue.py:292-336 | a file satisfies the invariant exactly when the validator accepts it and owners are distinct, the holder comes first, tickets are below the counter and only the holder is launching |
| `OpenerQueue.PassIsRefusedExactly` | bin/workspace_harbor_opener_queue.py:338-392 | a pass is refused, and writes nothing, exactly when some recorded process cannot be probed or the caller waits for another root; dead records never refuse it |
| `OpenerQueue.PassLeavesTheLiving` | bin/workspace_harbor_opener_queue.py:338-419 | after a pass exactly the records of live processes stand in the line, and the caller with the next ticket if it had none |
| `OpenerQueue.ReleaseLeavesTheOthers` | bin/workspace_harbor_opener_queue.py:421-435 | releasing leaves another holder, the other waiters and the counter as they are |
| `OpenerQueue.LaunchQueueFile.PassLaunch` | bin/workspace_harbor_opener_queue.py:353-419 | the locked section rewrites the queue file to what the pass says |
| `OpenerQueue.LaunchQueueFile.Withdraw` | bin/workspace_harbor_opener_queue.py:421-435 | the release section rewrites the queue file without the caller |
| `OpenerRuns.EveryRunIsSafe` | bin/workspace_harbor_opener_queue.py:292-435 | in every run: files stay valid, tickets ordered, owners unique, grants in ticket order, and at most one live client believes it holds the launch |
| `OpenerRuns.GrantsAheadAreBounded` | bin/workspace_harbor_opener_queue.py:353-435 | a waiter with i entries before it sees at most i grants to others before its own |
| `OpenerRuns.PositionNeverGrowsInRun` | bin/workspace_harbor_opener_queue.py:353-435 | a live client that does not release stays listed and never moves back |
| `OpenerRuns.PassPosition` | bin/workspace_harbor_opener_queue.py:393-400 | the reported position is the caller's place in the queue that is written |
| `OpenerRuns.AcquireLaunch` | bin/workspace_harbor_opener_queue.py:353-419 | the loop with its deadline and maximum position computes the call's outcome |
| `OpenerRuns.AcquireReportsTheFirstPosition` | bin/workspace_harbor_opener_queue.py:353-419 | the maximum position of a whole call is the position of its first pass, and an undisturbed caller stays listed, also after its deadline |
| `OpenerRuns.OneTurn` | bin/workspace_harbor_opener_queue.py:353-419 | a granted caller holds the launch before anyone else acts, a refused one has written nothing, a waiting one lets the others act |
| `OpenerRuns.AcquireJoin` | bin/workspace_harbor_opener_queue.py:353-419 | a call goes on exactly as long as it waits, with the highest position so far |
| `OpenerProtocol.OperationFiles.PassOperation` | bin/workspace_harbor_opener_queue.py:244-282 | a pass takes an operation record only from nobody or from a dead owner |
| `OpenerProtocol.OperationFiles.ReleaseEvery` | bin/workspace_harbor_opener_queue.py:437-446 | `release_all` removes exactly the caller's operation records |
| `OpenerProtocol.ActKeepsInv` | bin/open-codex-project-in-intellij:527-603 | every step of every client of the script, and every crash, keeps the protocol invariant |
| `OpenerProtocol.OneOperationPerRoot` | bin/workspace_harbor_opener_queue.py:244-290 | in every run at most one live client is inside the operation of a root |
| `OpenerProtocol.OneLaunchAtATime` | bin/open-codex-project-in-intellij:548-603 | in every run at most one live client is launching |
| `OpenerProtocol.LiveRecordsHoldTheirRoots` | bin/open-codex-project-in-intellij:527-603 | live queue entries belong to the holders of their roots' operations and have distinct roots |
| `OpenerProtocol.RegistrationNeedsTheOperation` | bin/open-codex-project-in-intellij:584-596 | a live client registers a project only while it holds that root's operation |
| `OpenerProtocol.DroppingTheOperationFirstBreaksRoots` | bin/workspace_harbor_opener_queue.py:437-446 | the order of `release_all` is needed: were the operation dropped first, a run of two clients would leave live records of both for one root in the line |
| `OpenerProtocol.OperationDecision` | bin/workspace_harbor_opener_queue.py:244-282 | a pass takes the operation exactly of a root without a record, of a dead owner or of its own, fails exactly on a record that cannot be probed or is misfiled, and changes nothing else |
| `OpenerProtocol.TryOperationExactly` | bin/workspace_harbor_opener_queue.py:244-282 | in the protocol a client gets its operation exactly when nobody else alive holds it, and fails only when the holder cannot be probed |
| `OpenerProtocol.TryLaunchExactly` | bin/workspace_harbor_opener_queue.py:353-419 | a client leaves exactly when some record cannot be probed, and launches exactly when it is the recorded holder |
| `OpenerProtocol.LeavingCleansUp` | bin/workspace_harbor_opener_queue.py:437-446 | `release-all` takes away exactly the records of the client |
| `OpenerProtocol.QuittingCleansUp` | bin/open-codex-project-in-intellij:527-603 | a client that quits anywhere in its operation goes through the same exit |
| `OpenerProtocol.ScriptGoesThrough` | bin/open-codex-project-in-intellij:527-603 | a script that nobody alive competes with takes over from the dead, registers its project under the operation, and leaves nothing behind |
| `BrokerFile.PruneDeadLeases` | bin/serena-worktree-broker:385-398 | exactly the dead leases go, and the idle time is set only when none is left |
| `BrokerFile.FindFreePort` | bin/serena-worktree-broker:372-383 | the lowest port of the range that is neither recorded nor taken, or none if there is none |
| `BrokerFile.ScanRecords` | bin/serena-worktree-broker:558-610 | the scanning loop of migration prunes and examines record by record and finds whether anything is to adopt |
| `BrokerFile.StateFile.CleanupState` | bin/serena-worktree-broker:1272-1294 | the cleanup loop drops dead services, prunes leases and stops idle ones as specified |
| `BrokerFile.StateFile.RootOwners` | bin/serena-worktree-broker:498-521 | the owners of a root are those of its live leases over all its services |
| `BrokerFile.StateFile.MigrateLegacy` | bin/serena-worktree-broker:558-625 | migration in place is the two-phase function |
| `BrokerFile.StateFile.Start` | bin/serena-worktree-broker:813-910 | starting reuses, replaces or launches a service and records its port |
| `BrokerFile.StateFile.ConnectSection` | bin/serena-worktree-broker:1090-1180 | the whole locked section of connect, with its state also when it refuses or fails |
| `BrokerFile.StateFile.DisconnectSection` | bin/serena-worktree-broker:1239-1248 | disconnecting takes the lease out of every leased service and prunes it |
| `BrokerFile.StateFile.RepairRootSection` | bin/serena-worktree-broker:1296-1343 | repair with its early exits and the records it drops before them |
| `BrokerSafety.ConnectKeepsInv` | bin/serena-worktree-broker:1090-1180 | connect keeps one owner per root and distinct ports in range, whether it succeeds, refuses or fails |
| `BrokerSafety.ConnectRecordsTheLease` | bin/serena-worktree-broker:1119-1180 | after a successful connect the lease is recorded and its owner owns all leases of the root |
| `BrokerSafety.AdmissionDecision` | bin/serena-worktree-broker:498-528 | a connect is admitted exactly when no other owner holds a live lease of the root in a service that survives cleanup, or migration adopts them |
| `BrokerSafety.DeadServicesReleaseTheRoot` | bin/serena-worktree-broker:1272-1294 | when every service process of a root is dead, any owner is admitted |
| `BrokerSafety.CleanupKeepsLiveLeases` | bin/serena-worktree-broker:1272-1294 | cleanup neither stops a service whose process looks owned nor takes a lease of it while that lease is live |
| `BrokerSafety.DisconnectEndsTheLease` | bin/serena-worktree-broker:1239-1248 | disconnecting ends the lease, keeps every other live one, and starts the idle time exactly when none is left |
| `BrokerSafety.DisconnectUndoesConnect` | bin/serena-worktree-broker:1119-1248 | after connecting and disconnecting no record carries the lease, however the connect went |
| `BrokerSafety.MigrationIsAllOrNothing` | bin/serena-worktree-broker:558-625 | false changes no owner; true changes only owner fields of the root's leases; neither adds a lease or drops a live one |
| `BrokerSafety.MigrationSatisfiesAssertion` | bin/serena-worktree-broker:498-528 | after a successful migration every lease of the root is the host's and the ownership assertion succeeds |
| `BrokerSafety.MigrationAdopts` | bin/serena-worktree-broker:558-625 | a successful migration has adopted at least one live legacy lease |
| `BrokerSafety.MigrationDecision` | bin/serena-worktree-broker:558-625 | migration returns false exactly when the source is no host, a live lease is another's and not migratable, or nothing is to adopt |
| `BrokerDecisions.PruneExactly` | bin/serena-worktree-broker:385-398 | exactly the leases of dead processes go, and the idle time starts now exactly when none is left and it had not started |
| `BrokerDecisions.DisconnectExactly` | bin/serena-worktree-broker:1239-1248 | disconnecting removes the lease of the leased services and prunes these; listing prunes all |
| `BrokerDecisions.CleanupExactly` | bin/serena-worktree-broker:1272-1294 | a service is signalled and dropped exactly when asked to, owned, not vanishing, without a live lease and idle for long enough; dropped unsignalled exactly when not owned; pruned otherwise |
| `BrokerDecisions.ListeningServiceIsReused` | bin/serena-worktree-broker:813-831 | a record whose process is owned and whose port listens is reused with its process, port and live leases |
| `BrokerDecisions.OtherServiceIsLaunched` | bin/serena-worktree-broker:828-910 | otherwise the record goes, and the start succeeds exactly when the launch comes up and a port is free: with the launched process, no leases and the lowest free port |
| `BrokerDecisions.MigrationExactly` | bin/serena-worktree-broker:558-625 | adoption happens exactly for a Codex host to which every live lease of the root belongs, one of them still process-scoped; every live lease is then the host's |
| `BrokerDecisions.AdmissionExactly` | bin/serena-worktree-broker:498-625 | a request is admitted exactly when its owner owns every live lease of the root in a service that looks owned, or it comes from the host they all belong to |
| `BrokerDecisions.AdmissionKeepsServices` | bin/serena-worktree-broker:1090-1098 | admission drops exactly the services that do not look owned, keeps idle ones, and only prunes those of other roots |
| `BrokerDecisions.ConnectSucceedsExactly` | bin/serena-worktree-broker:1090-1180 | a connect succeeds exactly when it is admitted and its primary service can start |
| `BrokerDecisions.FailedConnectLeasesNothing` | bin/serena-worktree-broker:1090-1180 | a connect that is refused or fails records its lease nowhere |
| `BrokerDecisions.HybridLeasesBoth` | bin/serena-worktree-broker:1150-1180 | a hybrid connect also leases its LSP service whenever that can start, and touches no record but those two after admission |
| `BrokerDecisions.RepairLeavesAlone` | bin/serena-worktree-broker:1296-1319 | a root without a record, or with two of one backend, is left as it is |
| `BrokerDecisions.RepairOfManyIsRefused` | bin/serena-worktree-broker:1312-1319 | a root with more than two records is ambiguous |
| `BrokerDecisions.RepairOfOne` | bin/serena-worktree-broker:1296-1343 | what repair does with the one record of a root: protected, unchanged, stopped, dropped as stale, or failing to stop, with the reason and the signal of each |
| `BrokerDecisions.RepairOfTwo` | bin/serena-worktree-broker:1296-1343 | what repair does with a JetBrains and an LSP record: which are dropped and signalled, and the answer |
| `BrokerRuns.EveryRunHasSingleOwners` | bin/serena-worktree-broker:217-228 | in every run all leases recorded for a root carry one owner and ports are distinct and in range |
| `BrokerRuns.ServicesFitTheRange` | bin/serena-worktree-broker:372-383 | in every run there are at most as many services as ports in the range |
| `BrokerRuns.IdleMeansLeaseFree` | bin/serena-worktree-broker:385-398 | a set idle time means no recorded lease now, nor in any state that was still in force after that time |
| `BrokerRuns.CleanupSignalsOnlyTheIdle` | bin/serena-worktree-broker:1272-1294 | cleanup signals only services without a lease in every state in force at some time of the idle period, up to the cleanup |
| `BrokerRuns.RepairSparesOtherRoots` | bin/serena-worktree-broker:1296-1343 | repair leaves the records of all other roots as they are |
| `BrokerRuns.RepairSignalsTheUnhealthy` | bin/serena-worktree-broker:1296-1343 | repair signals only unhealthy services of its root, and drops them |
| `BrokerRuns.RepairRespectsLiveLeases` | bin/serena-worktree-broker:1296-1343 | with a live lease recorded for the root, repair answers "protected" and signals nothing |
| `BrokerRuns.StopFailedMayFollowPartialRepair` | bin/serena-worktree-broker:1296-1343 | exactly when "stop failed" is answered although a record is gone: which record, and when its process was signalled |
| `BrokerRuns.AnotherOwnerIsAdmitted` | bin/serena-worktree-broker:1090-1180 | for any two owners there is a run after which a live lease of one is recorded and the other is admitted |
| `Lineage.FindLineageOwner` | bin/serena-worktree-broker:432-472 | the loop over current, visited and transitions computes the recursive walk |
| `Lineage.OwnerIsTheChainsRoot` | bin/serena-worktree-broker:432-472 | the walk succeeds with a thread exactly when it is the root of a chain of at most 8 valid links, and otherwise falls back to the start |
| `Lineage.ChainsDoNotRepeat` | bin/serena-worktree-broker:432-472 | a chain that reaches a root visits no thread twice |
| `Lineage.ChildAndParentShareOwner` | bin/serena-worktree-broker:432-472 | a child resolved through its lineage and its parent have the same owner |
| `Lineage.OwnersResolveToThemselves` | bin/serena-worktree-broker:432-472 | resolving an owner gives itself |
| `Lineage.TooDeepChildLosesItsOwner` | bin/serena-worktree-broker:432-472 | a child whose chain has 9 links falls back to itself while its parent still resolves to the root |
| `Lineage.SharedOwnerExactly` | bin/serena-worktree-broker:432-472 | child and parent have one owner exactly when the child's chain is within the depth limit or the child names itself |
| `Lineage.MetadataDecidesTheReason` | bin/serena-worktree-broker:432-472 | when the walk ends at a thread without a valid link, its metadata gives the reason that is reported |
| `Lineage.ThreadIdGroups` | bin/serena-worktree-broker:132-134 | a parent identifier is accepted exactly as five dash-joined groups of lower-case hexadecimal digits |
| `Lineage.LinksDecideTheReason` | bin/serena-worktree-broker:432-472 | a valid link fails only as a ninth one or back to a thread already seen, each with its reason |
| `CloseEndpoint.CloseServer.TakeTurn` | src/main/java/com/monsky/workspaceharbor/lifecycle/LifecycleHttpServer.java:31-69 | a turn of a request's thread on the concurrent map and futures is the step function |
| `CloseEndpoint.AdvanceKeepsClaims` | src/main/java/com/monsky/workspaceharbor/lifecycle/LifecycleHttpServer.java:38-48 | a step changes the map only by claiming a free root or removing a finished attempt |
| `CloseEndpoint.OneAttemptPerRoot` | src/main/java/com/monsky/workspaceharbor/lifecycle/LifecycleHttpServer.java:31-69 | in every run at most one unfinished attempt per root, so `adapter.close` calls of a root never overlap |
| `CloseEndpoint.UnfinishedAttemptsAreRun` | src/main/java/com/monsky/workspaceharbor/lifecycle/LifecycleHttpServer.java:38-69 | an unfinished future in the map or waited for belongs to a thread still running its attempt |
| `CloseEndpoint.OnlyFinishedAttemptsLeave` | src/main/java/com/monsky/workspaceharbor/lifecycle/LifecycleHttpServer.java:38-48 | only finished attempts ever leave the map |
| `CloseEndpoint.AttemptsProgress` | src/main/java/com/monsky/workspaceharbor/lifecycle/LifecycleHttpServer.java:49-69 | three own steps complete any attempt, whatever the adapter does and whoever interleaves |
| `CloseEndpoint.JoinersAreAnswered` | src/main/java/com/monsky/workspaceharbor/lifecycle/LifecycleHttpServer.java:41-47 | no joiner is stranded: once the joined thread has had three steps it replies with that attempt's value |
| `CloseEndpoint.JoinedRepliesAgree` | src/main/java/com/monsky/workspaceharbor/lifecycle/LifecycleHttpServer.java:41-47 | every joined reply is the final value of an attempt for the same root, whatever its mode |
| `CloseEndpoint.AttemptOutcome` | src/main/java/com/monsky/workspaceharbor/lifecycle/LifecycleHttpServer.java:49-69 | an own attempt is answered by the first adapter call that does not say yes; its future says whether it was accepted, and only then its claim stays |
| `CloseEndpoint.FinishedAttemptIsReplaced` | src/main/java/com/monsky/workspaceharbor/lifecycle/LifecycleHttpServer.java:38-48 | a finished attempt does not block its root: a request for the reopened project replaces the claim |
| `CloseEndpoint.FreeRootIsClaimed` | src/main/java/com/monsky/workspaceharbor/lifecycle/LifecycleHttpServer.java:39-40 | a request that finds no attempt of its root claims it |
| `CloseEndpoint.UnfinishedAttemptIsJoined` | src/main/java/com/monsky/workspaceharbor/lifecycle/LifecycleHttpServer.java:38-46 | a request that meets an unfinished attempt waits for it, open or not |
| `CloseEndpoint.FinishedAttemptDecision` | src/main/java/com/monsky/workspaceharbor/lifecycle/LifecycleHttpServer.java:38-48 | a finished attempt answers the request, with nothing claimed or completed, exactly while the project is not open or still closing; a question that throws answers "protected" |
| `CloseEndpoint.ReplyFailure` | src/main/java/com/monsky/workspaceharbor/lifecycle/LifecycleHttpServer.java:60-68 | an accepted attempt whose reply fails loses its claim although its future says "accepted" |
| `Incidents.TransitionsAreAcyclic` | bin/workspace_harbor_bridge.py:71-78 | every allowed transition strictly advances a rank |
| `Incidents.IncidentStore.DoTransition` | bin/workspace_harbor_bridge.py:394-431 | the compare-and-set changes the record only from the expected state and otherwise nothing |
| `Incidents.FindEligible` | bin/workspace_harbor_bridge.py:365-392 | finds an eligible incident of the root and thread, or there is none |
| `Incidents.IncidentStore.DoCreateOrReuse` | bin/workspace_harbor_bridge.py:365-392 | the scan reuses the first eligible incident or creates a new one |
| `Incidents.IncidentStore.PerformRelaunch` | bin/workspace-harbor-codex-relauncher:59-117 | the bounded waits with early exits write exactly one transition, named by the first blocker |
| `Incidents.CloseBlockedReport` | bin/workspace-harbor-codex-relauncher:42-56 | the report of `_close_blocked` is true exactly for a prepared or already blocked record |
| `Incidents.RelaunchOutcome` | bin/workspace-harbor-codex-relauncher:59-117 | on a prepared record the relauncher's result and the recorded state agree |
| `Incidents.RelaunchSucceedsExactly` | bin/workspace-harbor-codex-relauncher:59-117 | the exact observations under which a relaunch of a prepared incident succeeds |
| `Incidents.RelaunchRecordsTheFirstFailure` | bin/workspace-harbor-codex-relauncher:59-117 | which reason is recorded for each first thing that goes wrong, with nothing else changed |
| `Incidents.TransitionExactly` | bin/workspace_harbor_bridge.py:394-431 | a transition happens exactly from the expected state along one of the nine allowed pairs, and sets exactly the given fields of that incident |
| `Incidents.RecoveryReusesTheFirst` | bin/workspace_harbor_bridge.py:365-392 | the first listed eligible incident is reused untouched, and a fresh one recorded exactly when there is none |
| `IncidentRuns.ActKeepsInv` | bin/serena-bridge-doctor:474-658 | every step of recover, prepare, relaunch, resume and policy, and every death, keeps the incident invariant |
| `IncidentRuns.IncidentsAdvance` | bin/workspace_harbor_bridge.py:71-78 | in every run each incident goes through one acyclic life beginning eligible |
| `IncidentRuns.OneRelaunchPerIncident` | bin/serena-bridge-doctor:474-573 | in every run the relauncher is started at most once per incident |
| `IncidentRuns.OneEligibleIncident` | bin/workspace_harbor_bridge.py:365-392 | in every run at most one incident per root and thread is eligible |
| `IncidentRuns.AutomaticRestartsAreEarned` | bin/serena-bridge-doctor:634-658 | the policy is enabled only after a dogfood restart closed healthy, and every other restart comes after such a one |
| `IncidentRuns.AutomaticRestartsCanBeEarned` | bin/serena-bridge-doctor:474-658 | a smooth dogfood restart of any thread does lead to an enabled policy |
| `IncidentRuns.AttemptsAreRecorded` | bin/serena-bridge-doctor:544-552 | in every run a prepared incident carries its restart attempt and its heartbeat |
| `IncidentRuns.RelauncherReportsAreTrue` | bin/workspace-harbor-codex-relauncher:59-117 | in every run a relauncher's report agrees with what it wrote |
| `IncidentRuns.PreparationDecision` | bin/serena-bridge-doctor:474-573 | an uninterrupted `prepare` changes something exactly when state, scope, attestation, mode or policy, and app identity allow it; it then starts the relauncher or closes the incident as blocked |
| `IncidentRuns.ResumeDecision` | bin/serena-bridge-doctor:576-631 | an uninterrupted `resume` closes the incident, and closes it healthy exactly when the handshake is healthy and the tools are back |
| `IncidentRuns.PolicyDecision` | bin/serena-bridge-doctor:634-658 | enabling takes a healthily closed dogfood incident, disabling takes nothing |
| `Bootstrap.SortKeeps` | bin/workspace_harbor_bootstrap.py:467-467 | plans are executed in the order of their identifiers, none lost or added |
| `Bootstrap.SuccessRecord.Run` | bin/workspace_harbor_bootstrap.py:465-494 | removal, execution, second look, marker check and write: the record is back exactly when all of them succeed |
| `Bootstrap.PerformStopsAtTheFirstFailure` | bin/workspace_harbor_bootstrap.py:466-482 | the commands run in order up to the first non-zero exit, and all of them exactly when none fails |
| `Bootstrap.PerformExactly` | bin/workspace_harbor_bootstrap.py:466-482 | the successful executions are exactly the commands before the first failing one |
| `Bootstrap.LookDecides` | bin/workspace_harbor_bootstrap.py:276-289 | after a status check a run ends exactly when the plans are missing or unapproved, or record, markers and tools are in order and it is not forced |
| `Bootstrap.UndisturbedRun` | bin/workspace_harbor_bootstrap.py:444-494 | what an undisturbed run executes, and exactly when it leaves which record |
| `Bootstrap.UnapprovedRunsExecuteNothing` | bin/workspace_harbor_bootstrap.py:276-284 | as long as nothing is approved, no run executes a command or leaves a record |
| `Bootstrap.MachinePerforms` | bin/workspace_harbor_bootstrap.py:466-482 | the uninterrupted steps of the interleaved machine are exactly the program's loop |
| `Bootstrap.LockedRunOfTheMachine` | bin/workspace_harbor_bootstrap.py:465-494 | the locked part of an undisturbed run, as steps, writes the record exactly when all commands exit 0 and the second look confirms |
| `Bootstrap.HitsAreEarned` | bin/workspace_harbor_bootstrap.py:276-289 | in every run a reported hit rests on a run that executed every command with exit 0, saw one fingerprint and found all markers, with nobody executing when the record was read and every marker and command found by the status itself |
| `Bootstrap.NoRecordWhileExecuting` | bin/workspace_harbor_bootstrap.py:455-494 | while a run executes there is no record, and it holds the lock |
| `Bootstrap.OneRunExecutes` | bin/workspace_harbor_bootstrap.py:292-304 | at most one run executes at a time |
| `Bootstrap.FailedRunLeavesNoRecord` | bin/workspace_harbor_bootstrap.py:448-515 | a failed run leaves no record exactly when it got past the removal or there was none |
| `Bootstrap.FailureBeforeRemovalKeepsTheRecord` | bin/workspace_harbor_bootstrap.py:448-465 | a run that fails earlier does leave an older record |
| `Bootstrap.SettledRunsExecuteNothing` | bin/workspace_harbor_bootstrap.py:448-460 | from a settled state unforced runs on unchanged inputs execute and write nothing |
| `Bootstrap.FirstSuccessIsEnough` | bin/workspace_harbor_bootstrap.py:448-494 | concurrent unforced runs execute nothing after the first success, wherever they were |
| `Handshake.OutputReader.TakeLines` | bin/workspace_harbor_bridge.py:784-836 | the inner loop over the shrinking buffer takes complete lines until one settles the handshake |
| `Handshake.OutputReader.Read` | bin/workspace_harbor_bridge.py:753-838 | the outer loop folds the events, stopping when settled |
| `Handshake.OutcomeIsTheFold` | bin/workspace_harbor_bridge.py:753-838 | within the limits the outcome is the fold of the message step over the lines of the whole stream |
| `Handshake.ChunksDoNotMatter` | bin/workspace_harbor_bridge.py:753-838 | two ways of cutting one stream lead to one outcome |
| `Handshake.HealthyExactly` | bin/workspace_harbor_bridge.py:787-887 | the handshake is complete exactly when some line lists an expected tool, an earlier one initialized the session, nothing before it failed, and the proxy did not exit with an error |
| `Handshake.FoldExactlyWhenLinesFit` | bin/workspace_harbor_bridge.py:780-836 | every delivery yields the fold exactly when each line that is reached fits the buffer limit |
| `Handshake.FirstFailureDecides` | bin/workspace_harbor_bridge.py:784-836 | the first line that is not benign decides which failure, or which tools, are reported |
| `Handshake.SilenceIsNamed` | bin/workspace_harbor_bridge.py:753-767 | a deadline or an end of the process is blamed on the tools list exactly if a line had initialized the session, else on the initialization |
| `Handshake.TooMuchOutput` | bin/workspace_harbor_bridge.py:768-780 | output of either stream over the total limit ends an unsettled handshake with that failure |
| `Journal.BridgeJournal.Rotate` | bin/workspace_harbor_bridge.py:202-210 | the rotation loop shifts the files in place, and nothing when the line still fits |
| `Journal.BridgeJournal.Append` | bin/workspace_harbor_bridge.py:185-200 | an append, also one that stops after any file operation, leaves exactly the specified files and result |
| `Journal.BridgeJournal.Recent` | bin/workspace_harbor_bridge.py:212-239 | reads the files from the oldest and returns the last `limit` matching events |
| `Journal.AppendKeepsSuffix` | bin/workspace_harbor_bridge.py:185-210 | an append extends the history exactly when it succeeds and always keeps the files a suffix of it |
| `Journal.FilesAreASuffix` | bin/workspace_harbor_bridge.py:185-210 | in every run, whatever fails, the files oldest to newest are a contiguous suffix of everything appended |
| `Journal.AppendLosesOnlyTheOldestFile` | bin/workspace_harbor_bridge.py:185-210 | a successful append adds its line at the end and drops at most the text of the oldest file |
| `Journal.BoundedExactlyWithBackups` | bin/workspace_harbor_bridge.py:202-210 | every file always stays within the limit or holds one line exactly when there is at least one backup |
| `Journal.RecentIsTheEndOfHistory` | bin/workspace_harbor_bridge.py:212-239 | recent events are the end of the whole history of that root as far as the files reach back |
| `Journal.RotationShiftsByOne` | bin/workspace_harbor_bridge.py:202-210 | files move one place exactly when the line does not fit behind a non-empty current file and there are backups; where each goes |
| `Journal.MatchingHolds` | bin/workspace_harbor_bridge.py:212-239 | the matching lines are those of the root, each as often as it occurs |
| `Journal.RecentIsAsAsked` | bin/workspace_harbor_bridge.py:212-239 | recent returns the end of the matching lines, as many as asked for or all |
| `Deploy.Installation.Install` | bin/deploy-workspace-harbor:68-142 | success exactly when no step raises and what was staged is what is expected; then every name has the expected bytes and mode and every original is backed up; otherwise the destination is exactly as before, rolled back from the copies |
| `Deploy.RollbackRestores` | bin/deploy-workspace-harbor:126-134 | restoring the replaced names brings back the original directory exactly when the backups of the replaced originals hold what those files were |
| `Deploy.RollbackUndoesReplace` | bin/deploy-workspace-harbor:115-134 | from complete backups, rollback undoes the replacement at whichever move it stopped |
| `Deploy.ReplacesAll` | bin/deploy-workspace-harbor:115-117 | everything is replaced exactly when no move raises, all is staged and no name comes twice |
| `Reaper.CandidatesAreIdle` | bin/intellij-project-reaper:123-136 | a candidate is exactly an open, safe, unleased project idle for long enough |
| `Reaper.SelectionSize` | bin/intellij-project-reaper:138-147 | exactly the excess over the cap is selected, as far as there are candidates; never fewer than the cap stay open |
| `Reaper.SelectionOrder` | bin/intellij-project-reaper:138-147 | only candidates are selected, and no unselected candidate comes before a selected one |
| `Reaper.ReasonsAreExact` | bin/intellij-project-reaper:123-136 | each reason is given exactly for its condition, and a project is eligible exactly without any |
| `Reaper.SelectionIsEnough` | bin/intellij-project-reaper:138-147 | if more than the cap are open, exactly the cap stay open or everything that may be closed is selected; otherwise nothing is |
| `Reaper.SelectionPrefersMissingThenOldest` | bin/intellij-project-reaper:138-147 | missing roots are selected before existing ones, and longer unused ones before others |
| `Reaper.RootsStayUnique` | bin/intellij-project-reaper:93-121 | register, touch and remove keep the registered roots distinct |
| `Reaper.ApplyAt` | bin/intellij-project-reaper:93-121 | each operation changes the record of its own root only, in the stated way |
| `Reaper.CompareAndRemove` | bin/intellij-project-reaper:110-121 | compare-and-remove removes the record exactly when it is unchanged, and no other |
| `Reaper.OperationSucceedsExactly` | bin/intellij-project-reaper:93-121 | when register, touch and remove report success, and that they change nothing otherwise |
| `Reaper.CleanupTurnExactly` | bin/intellij-project-reaper:403-412 | a turn removes the selected record exactly when leases and plugins are readable, the root is unleased, open, safe and closed, it is no dry run and the record is unchanged |
| `Reaper.RefreshedRecordSurvives` | bin/intellij-project-reaper:93-121 | a record refreshed with another timestamp is never lost to a compare-and-remove, over any operations |
| `Reaper.CleanupTakesOnlyWhatItSelected` | bin/intellij-project-reaper:403-412 | a turn of the cleanup removes only an unchanged selected record that was unleased, safe and closed just now |
| `Reaper.CleanupSparesTheRefreshed` | bin/intellij-project-reaper:401-412 | the whole cleanup keeps a selected root that was refreshed before its turn |
| `Reaper.Registry.TouchRoot` | bin/intellij-project-reaper:101-109 | the loop updates the first record of the root in place, or nothing |
| `Reaper.Registry.RemoveRoot` | bin/intellij-project-reaper:110-121 | removal with its comparison on the latest registry |
| `Reaper.Registry.CleanUp` | bin/intellij-project-reaper:403-412 | the cleanup loop with its re-checks and other processes in between |
| `Safety.EvaluateSnapshot` | src/main/java/com/monsky/workspaceharbor/lifecycle/SafetyDecision.java:8-18 | the helpers' appended reasons are those of the fields in report order |
| `Safety.EvaluateForRecovery` | src/main/java/com/monsky/workspaceharbor/lifecycle/SafetyDecision.java:21-27 | the recovery decision lists unsaved documents, modality and closing only |
| `Safety.SafeMeansKnownAndQuiet` | src/main/java/com/monsky/workspaceharbor/lifecycle/SafetyDecision.java:8-43 | safe means exactly that every condition is known and inactive |
| `Safety.ReasonsAreExact` | src/main/java/com/monsky/workspaceharbor/lifecycle/SafetyDecision.java:8-43 | the reasons are exactly those of the fields that are unknown or active |
| `Safety.ReadStatus` | bin/intellij-project-reaper:174-197 | the validation loop accepts or rejects a report as specified |
| `Safety.OrdersAgree` | bin/intellij-project-reaper:183-188 | both programs list the same reasons exactly when indexing does not meet run, terminal or debugger activity |
| `Safety.ReportAccepted` | bin/intellij-project-reaper:174-197 | the report is accepted exactly when roots and counts are well-formed and no project has that clash |
| `Safety.AcceptedMeansEvaluated` | src/main/java/com/monsky/workspaceharbor/lifecycle/LifecycleHttpServer.java:30-30 | an accepted report carries the decision's flag and reasons, and filtered it is the recovery decision |
| `Safety.IndexingWithARunIsRefused` | bin/intellij-project-reaper:183-188 | a well-formed snapshot whose report is refused |
| `Safety.FilterIsRecovery` | bin/intellij-project-reaper:366-371 | the prefix filter of the reported reasons equals the reasons of the owned-recovery decision |
| `Safety.ReasonsInBothOrders` | src/main/java/com/monsky/workspaceharbor/lifecycle/SafetyDecision.java:8-43 | the texts of the reasons, condition by condition, in the order of the report and in that of the validator |
| `Safety.StatusAcceptedExactly` | bin/intellij-project-reaper:174-197 | any report, also a contradictory one, is accepted exactly when roots are distinct and every entry is truthful; exactly its entries are then read |
| `Safety.SafeExactly` | src/main/java/com/monsky/workspaceharbor/lifecycle/SafetyDecision.java:8-43 | safe means all seven conditions known, all counts zero and no activity; recovery asks for three of them |
| `Languages.RewriteBlock` | bin/serena-project-doctor:284-313 | the index loops find the block and rewrite it as specified |
| `Languages.PutGet` | bin/serena-project-doctor:284-313 | reading back a rewritten configuration gives exactly the written list |
| `Languages.AcceptedExactly` | bin/serena-project-doctor:300-313 | a block is rewritten exactly when its header has the supported form, something is written and the following lines do not go on with the list |
| `Languages.FirstHeaderDecides` | bin/serena-project-doctor:284-301 | the first line that starts like a header decides: refused as complex, rewritten or not validated, or a new block appended if there is none |
| `Languages.WrittenBlock` | bin/serena-project-doctor:284-306 | the written block is a plain header and one item for each language, in the newline of the text |
| `Languages.AppendedAfterAnEmptyLine` | bin/serena-project-doctor:292-298 | what exactly stands before an appended block: the text, ended, and one empty line |
| `Languages.PutPut` | bin/serena-project-doctor:284-313 | on an arbitrary text the last write wins, with the one exception stated exactly |
| `Languages.PutPutFailsAfterABareReturn` | bin/serena-project-doctor:284-298 | a text for which the last write does not win |
| `Languages.PutPutThroughTheFile` | bin/serena-project-doctor:408-414 | on what is read from a file and written back, the last write always wins |
| `Languages.RepairRewritesEndings` | bin/serena-project-doctor:408-414 | a repair that adds something leaves line feeds only; the lines outside the block are as before exactly when they had line feeds |
| `Languages.OutsideLinesStay` | bin/serena-project-doctor:303-306 | every line outside the block is kept, in order |
| `Languages.AppendedBlockKeepsLines` | bin/serena-project-doctor:292-298 | appending a block keeps every line, up to the ending of the last |
| `Languages.RewriteKeepsLines` | bin/serena-project-doctor:286-306 | the joined text of a rewritten document splits into the same lines again |
| `Languages.RepairAppendsOnce` | bin/serena-project-doctor:362-423 | repair only appends approved languages, all of them, and a second repair changes nothing |
| `Languages.MissingCounts` | bin/serena-project-doctor:406-406 | the added languages are the approved ones that are not configured, as often as approved |
| `Languages.RepairDecision` | bin/serena-project-doctor:400-416 | when a repair is refused, leaves the file, fails like the rewrite or because of a concurrent change, or writes |
| `Languages.ProjectConfig.RepairLanguages` | bin/serena-project-doctor:383-416 | both reads are in text mode; the file is rewritten only when something is missing and nobody changed what is read meanwhile |

## Left out

- OpenerRuns.AcquireLaunch: claims no unconditional progress, since a deadline leaves the entry queued until `release_all` or the death of its process.
- OpenerProtocol.OperationFiles.ReleaseEvery: removes all of the caller's records in one step of a run, because a script only ever owns the record of its own root.
- BrokerFile.StateFile.ConnectSection: one set of environment answers per start; `last_used_at`, `created_at`, language repair, bootstrap and the IDE opener inside the section are not modelled.
- BrokerRuns.CleanupSignalsOnlyTheIdle: about cleanup and its signals; starting a service may stop an unresponsive one of the same owner that still has leases.
- CloseEndpoint.JoinersAreAnswered: assumes that adapter calls throw only RuntimeExceptions; an Error would leave the future incomplete.
- IncidentRuns.OneRelaunchPerIncident: about relaunchers started by prepare; a relauncher started by hand on an old checkpoint is not modelled.
- IncidentRuns.ActKeepsInv: incidents come only from `create_or_reuse_restart`; attestation and checkpoint checks are a guard given from outside.
- Bootstrap.HitsAreEarned: reads all markers, and all tools, of a plan list in one step each; plans and fingerprint are read separately as in the program.
- Handshake.OutcomeIsTheFold: no deadline and no end of the process; `Handshake.SilenceIsNamed` is about those.
- Journal.FilesAreASuffix: a write that is interrupted in the middle of a line is not modelled, nor is a `recent` that reads while a rotation is under way.
- Deploy.Installation.Install: assumes that a copy that does not raise is faithful, that the rollback steps do not fail and that destinations are regular files; interrupts that are not ordinary exceptions are not caught by the program either.
- Languages.PutGet: languages are plain YAML scalars; everything else in the file is valid YAML to which a line's kind is known. Line ends are LF, CRLF and CR; the rarer separators that Python also splits at do not occur.
- Languages.ProjectConfig.RepairLanguages: the file does not change between loading the configuration and the first read of its text.
- The reaper's selection of nothing when the registry, the plugins or the leases cannot be read.
- Process liveness is one snapshot per locked section; `ps`, `lsof`, sockets, signals, subprocesses, permissions and fsync appear only as answers.
- The text of process start times, which two programs normalise differently, is one abstract token.
- The migration of the legacy opener lock directory.
- The precedence of environment variables, lineage and host in choosing an owner; only the lineage walk is modelled.
- Selection of bootstrap recipes, approval of custom commands and policy files: a plan list and an approved flag stand for them.
- JSON, YAML and XML parsing, digests, regular expressions, redaction and argument parsing.
- The rewriting of the first line of deployed runtime commands; the expected bytes are given.
- The creation of a missing project configuration by Serena during language repair.
- Hybrid routing, IDE discovery, trust and the IDE services behind the lifecycle server's adapter: the adapter answers arbitrarily.
- Status, lease and audit reports, human-readable recommendations and journal event contents.
