# Protocol and ledger proofs for the agent control plane

This project models the stateful core of the control plane in Dafny and proves what its parts promise: the gateway that
connects devices to runs, the placement controller that retires containers across crashes, the native file services, the
adapter that drives a native agent session, and the readers and printers at their edges. Everything is one Dafny project;
`dafny verify dfyconfig.toml` checks all of it.

How the models are built:

- A protocol is a state machine. Its actions are the locked regions, external effects, crashes and messages of the source,
  and the theorems hold for every sequence of actions. Clocks, the network, processes, random identifiers and the file
  system appear as parameters: an oracle list of replies, a set of faults, a fresh identifier.
- An object whose methods update its fields is a class, and each method is proved equal to a function on values. Where
  there is a machine, these are its step functions; for the gateway, `GatewayViews` proves that in every state a run reaches a
  session sees the machine's subscribe, unsubscribe and dispatch steps exactly as `SessionObjects` proves its methods to
  act. The file service, the export walk and the gateway's write have no machine: their promises stand in the methods' contracts.
- A promise is stated in both directions wherever the source makes it: beside what never happens stands when something
  does happen, in the terms of the inputs or of the history and not of the code's own fields.
- A history that the code does not keep (what was offered, emitted, dispatched) is carried beside the state, so that
  "exactly once", "in order" and "only after" can be stated.

Files, by component:

- `Placement.dfy`, `PlacementMembers.dfy`, `PlacementController.dfy`, `PlacementProgress.dfy`: enrolling and retiring a
  container against a disk that can lose renames.
- `Subscriptions.dfy`, `Registries.dfy`, `Gateway.dfy`, `GatewayPromises.dfy`, `GatewayDelivery.dfy`, `SessionViews.dfy`,
  `GatewayViews.dfy`, `SessionObjects.dfy`: run subscriptions, sessions and the registry, under every interleaving of their locked regions.
- `Preparations.dfy`: preparation status streams. `Fencing.dfy`: owner leases across pods.
- `ProcessOutput.dfy`, `Upload.dfy`, `FileService.dfy`, `Export.dfy`, `ExportTree.dfy`: the native file services.
- `PayloadJson.dfy`, `WorkspaceWrite.dfy`, `WorkspaceExport.dfy`: the gateway's file write, its wire form, and output export.
- `McpProfile.dfy`, `Inputs.dfy`, `Observations.dfy`, `CommandObserver.dfy`, `CommandReports.dfy`, `McpObserver.dfy`,
  `McpReports.dfy`, `FunctionBridge.dfy`, `Messages.dfy`: the agent adapter's admission check, input ledger and observers.
- `CleanPaths.dfy`, `SkillBundle.dfy`, `ShellQuote.dfy`: path cleaning, the Skill bundle reader, shell quoting.
- `Basics.dfy`, `Paths.dfy`: shared vocabulary.

Where the code and its own documentation disagree, the model follows the code:

- The lease's documentation (`server/migrations/000001_init.sql:738`, `internal/agentdaemon/device/state.go:10-12`) says
  the generation is incremented on every claim. The statements in `server/internal/db/queries/agentdaemon.sql` take it from
  the row, and releasing deletes the row, so the next claim starts at 1 again and can hand out a lease an older session of
  the same pod still holds. `Fencing` proves the fence under the documented contract, shows a run in which the statements
  break it, and proves exactly which claims keep it.
- The tool-server observer collects a message's events and returns them at the end, so a message that fails halfway keeps
  its changes and drops its events: a call can then be reported without ever having been announced. `McpObserver` shows
  such a message and proves that the reports of a run are paired exactly when no message of the run fails that way, which
  a caller can tell from the message's blocks and the calls known before it. The command observer yields each event as it happens and has no such case.

## Model

| member | source | states |
|---|---|---|
| Placement.RetiredIsEarned | internal/agentdaemon/placement/controller_linux.go:95-195 | in every run with crashes and retries no record is torn and each was seen running; one reading "retired" means the container is gone, every process it names is dead, and, in this order, the enrolled host and supervisor, the enrolled incarnation within the profile, that incarnation not running and without a process, its group unpopulated, and the removal of a container not running were seen |
| Placement.StopFollowsSyncedRecord | internal/agentdaemon/placement/controller_linux.go:160-169 | a stop is issued only while the very "stopping" record acted on is on disk, synced, with no rename outstanding, and on the boot it was enrolled on |
| Placement.ReportedRetirementLasts | internal/agentdaemon/placement/controller_linux.go:95-121 | once a retirement was reported, every later load after any crashes reads "retired" with the same target |
| Placement.ReportedEnrolmentLasts | internal/agentdaemon/placement/controller_linux.go:40-93 | once an enrolment was reported, every later load finds that target |
| Placement.RunKeeps | internal/agentdaemon/placement/controller_linux.go:40-195 | the invariant tying disk records, the call in progress, the world and the log holds along every run |
| Placement.CrashKeeps | internal/agentdaemon/placement/state_linux.go:128-161 | a crash may keep the synced record or any rename since, and whichever survives is a good record |
| Placement.SyncKeeps | internal/agentdaemon/placement/state_linux.go:128-161 | after the directory sync the new record is the only one that can be read, and the invariant stands |
| Placement.InspectGrows | internal/agentdaemon/placement/controller_linux.go:131-142 | a retirement goes on only after the enrolled incarnation was seen present and within the profile, on the enrolled host |
| Placement.ReinspectGrows | internal/agentdaemon/placement/controller_linux.go:170-177 | only a present container of the enrolled incarnation and boot, not running and without a process, counts as stopped |
| Placement.GroupGrows | internal/agentdaemon/placement/observe_linux.go:95-109 | only an unpopulated group lets the process checks begin |
| Placement.ProcessGrows | internal/agentdaemon/placement/observe_linux.go:95-123 | each process check adds one more identity known dead, and removal is reached only with all of them dead |
| Placement.RemovalGrows | internal/agentdaemon/placement/controller_linux.go:181-188 | what is about to be recorded as retired is earned: the removed container was there and not running, after all the evidence |
| Placement.MembersGrow | internal/agentdaemon/placement/controller_linux.go:154-163 | the record about to be stopped on is a good one with the processes just shown added |
| PlacementMembers.RecordsNameWhatWasShown | internal/agentdaemon/placement/controller_linux.go:74-93 | in every run an enrolled record names exactly the processes shown last, and the record of a stop names every process shown last before it |
| PlacementMembers.NamesAreKept | internal/agentdaemon/placement/controller_linux.go:95-195 | every later record, after any crashes and retries, is of the same target and still names what an enrolled or stopped-on record named |
| PlacementMembers.SyncedNamesAreKept | internal/agentdaemon/placement/state_linux.go:128-161 | the same of every synced record, whether or not the stop it was written for was issued |
| PlacementMembers.ProcessesSeenAtStopsAreDead | internal/agentdaemon/placement/observe_linux.go:95-123 | once the record reads "retired", every process shown last before any stop is dead, wherever it moved |
| PlacementProgress.RunningContainersEnroll | internal/agentdaemon/placement/controller_linux.go:40-93 | on a host where every operation succeeds a running container without a record is enrolled, with exactly what was seen of it |
| PlacementProgress.StoppedContainersRetire | internal/agentdaemon/placement/controller_linux.go:123-195 | a recognized container found stopped, its group empty and its processes dead, is retired |
| PlacementProgress.RunningContainersRetire | internal/agentdaemon/placement/controller_linux.go:123-195 | a recognized running container is stopped and, once nothing it was seen to hold is alive, retired with all of it named |
| PlacementController.Controller.Save | internal/agentdaemon/placement/state_linux.go:128-161 | succeeds only with the record flushed, renamed and synced; every failure ends the call without a report |
| PlacementController.Controller.Enroll | internal/agentdaemon/placement/controller_linux.go:40-93 | success leaves a synced "enrolled" record of the incarnation just seen running within the profile and of exactly the members just shown, never over an existing record, and appends exactly one report; the call is the protocol driven by the replies to its end |
| PlacementController.Controller.ObserveRetired | internal/agentdaemon/placement/observe_linux.go:95-123 | passes only with the group seen unpopulated and every recorded process dead, and otherwise ends the call |
| PlacementController.Controller.Retire | internal/agentdaemon/placement/controller_linux.go:123-195 | the sequence of effects is the protocol driven by the replies; it returns the retired record, on disk and reported and naming all the loaded one named, exactly when it succeeds |
| PlacementController.Controller.CurrentMembers | internal/agentdaemon/placement/controller_linux.go:143-159 | the members returned are those just shown, after the init process and the group were recognized |
| PlacementController.Controller.RetirePlacement | internal/agentdaemon/placement/controller_linux.go:95-121 | the call is the protocol driven by the replies to its end; success returns the very record that loads from disk: retired, earned and just reported; on failure nothing was reported |
| Subscriptions.OfferKeeps | internal/agentdaemon/gateway/subscription.go:98-126 | dispatching to an open channel keeps its promise: gap-free prefix and overflow exactly on refusal if durable, ordered selection otherwise |
| Subscriptions.ShutKeeps | internal/agentdaemon/gateway/subscription.go:28-33 | closing keeps the channel's promise and closes at most once |
| Subscriptions.EndedTells | internal/agentdaemon/gateway/subscription.go:86-96 | closing tells a best-effort reader the error and the done with two places free in its 32, the error with one, nothing when full, and a durable one nothing |
| GatewayPromises.NeverPanics | internal/agentdaemon/gateway/subscription.go:49-126 | in every interleaving nothing is sent on a closed channel |
| GatewayPromises.DurableReadersHaveNoGaps | internal/agentdaemon/gateway/subscription.go:98-126 | a durable reader holds a gap-free prefix of what was dispatched for its run while it was current, short of it exactly when it overflowed |
| GatewayPromises.BestEffortReadersKeepOrder | internal/agentdaemon/gateway/session.go:246-296 | a best-effort reader holds an ordered selection, then at most the closing error and done, and those only from a closing session |
| GatewayDelivery.DispatchedFramesEnter | internal/agentdaemon/gateway/subscription.go:98-126 | in every run a dispatched frame enters its reader's channel exactly when fewer than 256 frames (durable) or 32 (best effort) wait in it; a done then closes it, and a full durable one ends in overflow |
| GatewayDelivery.ReadersMissNothingWithRoom | internal/agentdaemon/gateway/subscription.go:98-126 | in every run a reader of either kind was given its whole share if and only if no frame for it ever found the channel full; a durable one overflowed exactly then |
| GatewayDelivery.ClosingFramesEnter | internal/agentdaemon/gateway/session.go:270-296 | each closing frame enters a best-effort channel exactly when fewer than 32 frames wait in it |
| GatewayDelivery.SubscribersAreAttached | internal/agentdaemon/gateway/subscription.go:49-72 | in every reachable state an open session subscribes to any named run with an empty channel, the former subscription ends with its frames kept, lookups of the run find the session and every later frame reaches the new subscription |
| GatewayDelivery.UnsubscribersAreDetached | internal/agentdaemon/gateway/subscription.go:74-84 | in every reachable state unsubscribing ends the subscription without an error and leaves no entry for the run |
| GatewayPromises.NobodyWaitsInVain | internal/agentdaemon/gateway/registry.go:272-342 | no device is registered and waited for at once, listed channels are empty and listed once, and a waiting caller is listed or has its session at hand |
| GatewayPromises.RegisterReachesEveryWaiter | internal/agentdaemon/gateway/registry.go:71-110 | every non-blocking send of a registration lands |
| GatewayPromises.LookupsFindHolders | internal/agentdaemon/gateway/registry.go:115-136 | a run's entry names a session that holds the subscription or is closing, and after close has finished no device or run leads to the session |
| GatewayDelivery.DevicesAreFoundAtTheirLatestSession | internal/agentdaemon/gateway/registry.go:71-150 | in every run a device is found exactly at the session that connected last for it, until that one has finished closing |
| Registries.FilterInPlace | internal/agentdaemon/gateway/registry.go:324-342 | filtering the slice onto its own front leaves exactly the other channels, in order |
| Registries.RemainingIsTheRest | internal/agentdaemon/gateway/registry.go:324-342 | what remains are exactly the other channels, still listed once |
| Registries.Registry.Register | internal/agentdaemon/gateway/registry.go:71-110 | the latest dial-in wins, the displaced session loses every entry, and the device's waiters get the session and are unlisted |
| Registries.Registry.Deregister | internal/agentdaemon/gateway/registry.go:115-136 | removes the session's entries and leaves a successor's device entry alone |
| Registries.Registry.Wait | internal/agentdaemon/gateway/registry.go:272-320 | answers at once or lists a new empty channel |
| Registries.Registry.RemoveWaiter | internal/agentdaemon/gateway/registry.go:324-342 | takes the channel off the device's list, and the list off the map when it is empty |
| SessionObjects.Subscription.Dispatch | internal/agentdaemon/gateway/subscription.go:98-126 | the select on the channel is the modelled offer |
| SessionObjects.Subscription.CloseForSession | internal/agentdaemon/gateway/subscription.go:86-96 | closing delivers as much of error and done as a best-effort channel has room for, nothing to a durable one, and leaves a closed one alone |
| SessionObjects.Session.Subscribe | internal/agentdaemon/gateway/subscription.go:49-72 | a new open subscription replaces and shuts the run's former one and is indexed, as the machine's step is seen; refused exactly for an empty run or a closed session |
| SessionObjects.Session.Unsubscribe | internal/agentdaemon/gateway/subscription.go:74-84 | shuts and removes the run's subscription and its index entry, touching no other |
| SessionObjects.Session.DispatchToSubscriber | internal/agentdaemon/gateway/subscription.go:98-126 | a frame reaches its run's subscription only, and one it closed leaves the map and the index |
| SessionObjects.Session.Close | internal/agentdaemon/gateway/session.go:246-268 | every subscription ended as its kind demands, map empty, and no index entry left to this session |
| GatewayViews.SubscribeIsSeen | internal/agentdaemon/gateway/subscription.go:49-72 | in every state any run reaches, the machine's subscribe step seen by its session is what the object's method does |
| GatewayViews.UnsubscribeIsSeen | internal/agentdaemon/gateway/subscription.go:74-84 | likewise unsubscribing, in every reachable state |
| GatewayViews.DispatchIsSeen | internal/agentdaemon/gateway/subscription.go:98-126 | likewise dispatching a frame, in every reachable state: no session ever maps the empty run |
| Preparations.OfferKeeps | internal/agentdaemon/gateway/preparation.go:44-75 | one status keeps a stream on one handle with strictly rising revisions, rejections aside, and closed after a terminal status |
| Preparations.StreamsKeepTheirPromises | internal/agentdaemon/gateway/preparation.go:18-86 | the same in every interleaving, with overflow exactly when a status found the stream full and at most 64 open streams listed |
| Preparations.NothingOutlivesTheSession | internal/agentdaemon/gateway/preparation.go:77-86 | however long after the session was marked closed its list is drained, from then on every stream there is or will be is shut |
| Preparations.NewsGetsThrough | internal/agentdaemon/gateway/preparation.go:44-75 | in every interleaving a status enters its channel exactly when it is news to the reader (a rejection, or a revision of the same handle above all sent) and fewer than 16 wait in it; news that finds it full ends it with overflow, anything else changes nothing |
| Preparations.Table.Subscribe | internal/agentdaemon/gateway/preparation.go:18-31 | lists a new stream exactly when the session is open, the request new and the bound not reached |
| Preparations.Table.Dispatch | internal/agentdaemon/gateway/preparation.go:44-75 | updates, overflows or closes the listed stream and unlists it when closed |
| Preparations.Table.ClosePreparations | internal/agentdaemon/gateway/preparation.go:77-86 | the loop shuts exactly the listed streams and empties the list |
| Fencing.ContractFences | internal/agentdaemon/gateway/session.go:398-470 | with generations that never repeat, every dispatched frame followed a renewal, made after reading it, at the then newest claim, and a stale session's release never removes the newer owner |
| Fencing.NewestSessionGetsThrough | internal/agentdaemon/gateway/session.go:398-470 | under the contract the newest session holds the row until it releases it, and renews for and dispatches whatever it has read |
| Fencing.ReleaseSparesTheNewest | internal/agentdaemon/gateway/session.go:457-470 | behind the fence only the newest owner's release frees the row |
| Fencing.FencedExactlyAfterSafeClaims | server/internal/db/queries/agentdaemon.sql:3-26 | a claim leaves the fence standing if and only if no live session holds the lease it is about to hand out |
| Fencing.OtherStepsKeepTheFence | internal/agentdaemon/gateway/session.go:398-470 | nothing but a claim can break the fence |
| Fencing.SafeClaimsFence | internal/agentdaemon/gateway/handler.go:154-188 | a run whose every claim is safe dispatches properly to its end, wherever generations come from |
| Fencing.UnsafeClaimsLetStaleSessionsIntrude | server/internal/db/queries/agentdaemon.sql:34-50 | a claim is unsafe if and only if some stale session can then free the new owner's row or pass its renewal with a frame it already read |
| Fencing.DeletedRowsForgetGenerations | server/internal/db/queries/agentdaemon.sql:3-50 | a concrete run: after release deleted the row, a returning device gets generation 1 again and a stale session's release removes its row |
| ProcessOutput.Output.Append | packages/codex-harness/src/files_process_output.rs:18-50 | accepts exactly the responses whose count explains every number since the cursor and whose chunks climb on standard output within 4 MiB; a refusal moves no cursor |
| ProcessOutput.NoneMissing | packages/codex-harness/src/files_process_output.rs:31-49 | genuine climbing chunks, as many as there are, are all of them: counting suffices to detect eviction |
| ProcessOutput.AcceptedExactlyWhenNothingIsMissing | packages/codex-harness/src/files_process_output.rs:18-50 | on truthful snapshots a response is accepted if and only if it omits no chunk after the cursor |
| ProcessOutput.AcceptedReadIsComplete | packages/codex-harness/src/files_process_output.rs:18-50 | every accepted run holds the concatenation of all chunks up to the cursor, and everything once exited and closed |
| ProcessOutput.ReadExactlyWhenUnbroken | packages/codex-harness/src/files_process_output.rs:18-50 | truthful replies are read through if and only if each arrives and omits nothing since the one before it, within 4 MiB |
| ProcessOutput.EndsExactlyWhenUnbroken | packages/codex-harness/src/files_directory.rs:95-118 | a read ends at the first final reply exactly when all replies up to it arrive and omit nothing, and then holds everything written |
| ProcessOutput.List | packages/codex-harness/src/files_directory.rs:93-118 | a read that ends is decoded exactly when the process exited with code 0 and undenied, with all it wrote, and rejected otherwise; one that breaks is unsettled if the reply was lost, rejected if it was final, and else decided by stopping the process; nothing else is decided |
| ProcessOutput.StopAndReject | packages/codex-harness/src/files_directory.rs:137-156 | rejects exactly when the process was terminated and seen settled with no reply lost or failed before |
| Upload.Stage | packages/codex-executor/src/write_file.rs:61-72 | the buffered copy stages exactly the announced bytes, or fails exactly when input or disk gives out |
| Upload.Install | packages/codex-executor/src/write_file.rs:26-129 | for every stream and failure point the destination only ever holds its old value or the verified bytes, and the outcome tells which; a power loss at any moment leaves one of the two whole, and after success the new one |
| Upload.Transfer | packages/codex-harness/src/files_write.rs:93-156 | sends a prefix of body and digest; when all of it was accepted and the helper is seen to end with code 0 and undenied, the answer is "committed" exactly for a version-1 completion of that size and "rejected" exactly for the two known errors in its complete output; anything else is unsettled, or still waiting |
| Upload.CommittedIsTheBody | packages/codex-executor/src/write_file.rs:26-90 | whatever prefix of the stream arrives, a commit installs exactly the body |
| Upload.RoundTrip | packages/codex-harness/src/files_write.rs:93-125 | for every body up to 50 MiB, installing what the sender writes leaves the destination equal to the body |
| Upload.ReceiptTellsTheTruth | packages/codex-executor/src/bin/write.rs:28-39 | told "committed" the destination is the body, told "rejected" it is untouched, and a commit whose sync failed is never called rejected |
| Upload.Deliver | packages/codex-harness/src/files_write.rs:93-156 | sender and helper together: when the replies are truthful and the helper installed some prefix of the stream, "committed" means the destination is the body, "rejected" that it is untouched, and no answer that it is one of the two; when the helper is seen to end, the sender answers "committed" exactly if it installed and "rejected" exactly if nothing was committed |
| FileService.Service.Exchange | packages/codex-harness/src/files.rs:338-410 | leaves in the log exactly what the connection calls for: the operation started, settled when its outcome is known and answered when it can be, or a refusal; an unknown outcome is reported unsettled |
| FileService.Service.Serve | packages/codex-harness/src/files.rs:88-114 | operations start only after every earlier one settled; the log gains exactly what the reached turns of the service's own user leave, in order, and the loop ends as the first turn that ends it says |
| FileService.OperationsAreThoseServed | packages/codex-harness/src/files.rs:88-114 | an operation is started exactly for the admitted requests of the service's own user on the turns reached, settled exactly if its outcome became known, and answered exactly if it can be |
| FileService.ForeignersLeaveNothing | packages/codex-harness/src/files.rs:107-109 | whatever other users send, nothing happens for them |
| FileService.OperationKeeps | packages/codex-harness/src/files.rs:376-410 | whichever of its three shapes an operation leaves, the log stays in order |
| FileService.Supervise | packages/codex-harness/src/owner.rs:7-22 | success only if the runner succeeded and nothing is unsettled; after the runner ends, its result stands exactly if the service drained well; the service ending first is never a success |
| Export.Observe | packages/codex-executor/src/directory.rs:23-60 | lists all visible entries or says it was cut off, never looking at more than one beyond the limit |
| Export.Listing | packages/codex-executor/src/export.rs:59-64 | names are given exactly when the directory can be listed whole within the limit, sorted, with all of them counted |
| Export.Walker.Append | packages/codex-executor/src/export.rs:96-126 | adds a file exactly when it is regular, on the same device, singly linked, fully read and stable, and within both byte budgets |
| Export.Walker.Walk | packages/codex-executor/src/export.rs:44-94 | every walk ends, and succeeds exactly when the tree below is whole (bounded, one device, steady, listed twice alike, no special entry, every file good) and within both budgets; it has then collected exactly its regular files, directory entries in order of their names |
| Export.Walker.WalkEntries | packages/codex-executor/src/export.rs:65-86 | the loop over a directory's sorted entries succeeds exactly when they are whole and within both budgets, and collects exactly the files under them, in order |
| Export.Walker.WalkEntry | packages/codex-executor/src/export.rs:67-85 | one entry succeeds exactly when it is an openable whole directory or a good file within both budgets; anything else is refused |
| Export.SortOrders | packages/codex-executor/src/export.rs:64-89 | sorting orders entries by the bytes of their names and neither adds nor loses any |
| ExportTree.FilesAreDistinct | packages/codex-executor/src/export.rs:44-94 | when directories list different names without slashes, no path is exported twice and all lie below the start |
| ExportTree.FilesAreThoseReached | packages/codex-executor/src/export.rs:44-94 | on a whole tree a path is exported if and only if a chain of visible directory entries ending in a regular one leads to it |
| Export.ArchiveFits | internal/agentdaemon/proto/workspace_export.go:9 | whatever a walk within its budgets collected, the archive with long-name headers, padding and trailer (ustar Interchange Format in the pax section of POSIX.1-2017) stays within 528 MiB |
| Export.Outputs | packages/codex-executor/src/export.rs:24-42 | absent outputs give an empty archive, present ones are exported exactly when they open, are whole and within both budgets, and every finished export is the whole tree and fits the gateway's limit |
| WorkspaceWrite.StepsAreValid | internal/agentdaemon/proto/workspace_write.go:39-63 | every frame of a write is a valid request and the chunks join to exactly the data |
| WorkspaceWrite.ChunksInOrder | internal/agentdaemon/gateway/workspace_write.go:70-77 | chunks follow one another without overlap, each acknowledged by a larger offset |
| WorkspaceWrite.ReceiptsAreNotInterchangeable | internal/agentdaemon/gateway/workspace_write.go:81-103 | a receipt that confirms one step confirms no other |
| WorkspaceWrite.FramesFit | internal/agentdaemon/gateway/workspace_write.go:42-46 | every valid request, written as JSON with its texts escaped and its data in base64, fits one frame, so the size guard never refuses one |
| WorkspaceWrite.Session.Write | internal/agentdaemon/gateway/workspace_write.go:16-79 | sends a prefix of the steps, one write at a time; "completed" if and only if the request is valid, the slot free and every step confirmed by its own receipt |
| WorkspaceWrite.Session.Transfer | internal/agentdaemon/gateway/workspace_write.go:66-78 | the loop over offsets performs the steps in order and stops at the first receipt that does not confirm |
| WorkspaceExport.ReaderYieldsTheChunks | internal/agentdaemon/gateway/workspace_export.go:63-107 | for every reply sequence and buffer sizes, bytes handed over plus pending equal the accepted chunks, within the limit, with valid requests at non-decreasing offsets |
| WorkspaceExport.DrainKeeps | internal/agentdaemon/gateway/workspace_export.go:44-50 | draining ends with a completion receipt for exactly the bytes handed over, or with an error |
| WorkspaceExport.Reader.ReadInto | internal/agentdaemon/gateway/workspace_export.go:63-107 | the reader's fields follow the modelled read |
| WorkspaceExport.Session.Export | internal/agentdaemon/gateway/workspace_export.go:14-50 | succeeds if and only if the request is valid, the slot free, the consumer content and the drained exchanges end in a completion receipt at the total offset; otherwise the daemon's export is cancelled, and the slot is free again |
| WorkspaceExport.RunWorkspaceExport | apps/parsar-daemon/internal/dispatch/workspace_export.go:66-124 | the daemon's loop answers requests in order, refusing one at another offset |
| WorkspaceExport.RoundTrip | apps/parsar-daemon/internal/dispatch/workspace_export.go:88-123 | reader and daemon together: however the archive is cut and whatever buffers are used, the export completes and hands over exactly the archive |
| McpProfile.Profile.Verify | packages/claude-sdk-adapter/src/mcp.ts:92-127 | succeeds if and only if every declared server reports once and connected, no native name is ambiguous, and the inventory is the disjoint union of functions and allowed tools; a failure withdraws the admission only |
| McpProfile.Profile.Gather | packages/claude-sdk-adapter/src/mcp.ts:109-115 | the tools of one server are taken exactly when none of their native names is taken |
| McpProfile.Complete | packages/claude-sdk-adapter/src/mcp.ts:117-121 | comparing sizes and membership is enough: by counting, the inventory is exactly the expected union |
| McpProfile.AdmissibleMeans | packages/claude-sdk-adapter/src/mcp.ts:100-116 | checking status by status comes to the same as checking them all at once |
| McpProfile.ExpectedIsExact | packages/claude-sdk-adapter/src/mcp.ts:109-115 | each allowed tool is under its own native name, and each native name leads to one server and tool |
| McpProfile.NativeNamesArePlain | packages/claude-sdk-adapter/src/mcp.ts:12-16 | native names use plain characters only, tools already spelt so keep their spelling, and remote connectors' tools lose doubled underscores and those at the ends |
| McpProfile.PlainToolsAreTold | packages/claude-sdk-adapter/src/mcp.ts:12-16 | within a server, plainly spelt tools never share a native name |
| McpProfile.Profile.BeforeTool | packages/claude-sdk-adapter/src/mcp.ts:58-74 | the hook allows exactly the permitted calls |
| McpProfile.OnlyVerifiedToolsAreCalled | packages/claude-sdk-adapter/src/mcp.ts:58-138 | in every run a call goes through only as the session's own use, unaborted and under its own id, in the session, and for a tool of the inventory, that the last action verified |
| McpProfile.CallsGoThroughExactlyWhenVerified | packages/claude-sdk-adapter/src/mcp.ts:58-138 | in every run a call goes through if and only if it is such a use, the last action verified its session, the tool is in that inventory, and the profile was not closed before its first success |
| McpProfile.EarlyCloseIsFinal | packages/claude-sdk-adapter/src/mcp.ts:138 | once closed before any success nothing is ever called, whatever is verified later |
| Inputs.InputsArriveInOrder | packages/claude-sdk-adapter/src/inputs.ts:48-90 | in every run the iterator yields a prefix of the accepted inputs, in order, each once, and at most 64 are accepted |
| Inputs.ReceiptsAreEarned | packages/claude-sdk-adapter/src/inputs.ts:56-76 | no id is receipted twice, and an id is receipted if and only if a message of the session itself, neither nested nor replayed nor synthetic, named its input |
| Inputs.InputsAreMarkedByMessages | packages/claude-sdk-adapter/src/inputs.ts:56-70 | in every run an input is applied if and only if some message of the session named it after it was submitted, and completed if and only if a result did |
| Inputs.ClosingIsFinal | packages/claude-sdk-adapter/src/inputs.ts:33-82 | when a result closes the ledger there were inputs, each was named by a result, and every later submission is rejected |
| Inputs.ResultsCloseExactlyWhenAllAreAnswered | packages/claude-sdk-adapter/src/inputs.ts:62-78 | a result naming one of the inputs is accepted, and closes the ledger, told before its receipts, if and only if by then every input was named by a result; nothing else closes it so |
| Inputs.SubmissionsGetInExactlyWhenOpen | packages/claude-sdk-adapter/src/inputs.ts:33-46 | in every run a well-formed input is queued behind all others if and only if the session was announced, nobody closed the ledger, fewer than 64 were taken and none had its id; otherwise it is rejected |
| Inputs.MarkKeeps | packages/claude-sdk-adapter/src/inputs.ts:62-69 | marking named inputs, repeated names included, adds one receipt for each newly applied id |
| Inputs.Ledger.SubmitInput | packages/claude-sdk-adapter/src/inputs.ts:33-46 | throws on malformed input, rejects when ended, unstarted, full or repeated, and otherwise enqueues |
| Inputs.Ledger.ConsumeMessage | packages/claude-sdk-adapter/src/inputs.ts:56-76 | marks the named inputs, throws on an unattributed result, and closes admission before the receipts of the last result |
| Inputs.Ledger.Next | packages/claude-sdk-adapter/src/inputs.ts:84-90 | hands over the oldest queued message, and ends only when closed and drained |
| CommandObserver.CallsAreReportedOnce | packages/claude-sdk-adapter/src/command_observer.ts:21-110 | over every message sequence a known command has exactly one "before", at most one "after" and only after it, exactly one right after closing, and a report of success or failure repeats what its result said |
| CommandReports.ReportsRepeatTheMessages | packages/claude-sdk-adapter/src/command_observer.ts:39-90 | in every run a call's command comes from a use, its output and result from an answer and its status from that answer and its interruption evidence; without a result it is open or was closed |
| CommandReports.AcceptedMessagesAreObserved | packages/claude-sdk-adapter/src/command_observer.ts:21-92 | in every run a message is accepted if and only if it is ignored, or for the session and every block agrees with what is known; all its commands are then known calls, and the known calls it answers hold those results |
| CommandReports.UsesPassMeans | packages/claude-sdk-adapter/src/command_observer.ts:32-53 | the uses of a message get through if and only if each agrees with the known calls and the earlier blocks |
| CommandReports.AnswersPassMeans | packages/claude-sdk-adapter/src/command_observer.ts:55-90 | the answers get through if and only if each repeats its call's result or is the first for an open one and its evidence permits |
| CommandObserver.Observer.ConsumeMessage | packages/claude-sdk-adapter/src/command_observer.ts:21-92 | a message changes calls and events as modelled, up to the block that throws |
| CommandObserver.Observer.CloseCalls | packages/claude-sdk-adapter/src/command_observer.ts:98-106 | every open call is reported incomplete, in the order first seen |
| McpObserver.PairedExactlyWhenLossless | packages/claude-sdk-adapter/src/mcp_observer.ts:18-72 | the reports of a run are paired if and only if no message announces or settles a call before a block that its own guards refuse |
| McpObserver.LosesMeansDropped | packages/claude-sdk-adapter/src/mcp_observer.ts:24-57 | a failing message drops events exactly when the blocks and the known calls say that something was said before the failing block |
| McpObserver.UsesPassMeans | packages/claude-sdk-adapter/src/mcp_observer.ts:27-41 | a message of uses gets to its end if and only if no use of a known tool lacks an id or disagrees with a known call or an earlier block |
| McpObserver.AnswersPassMeans | packages/claude-sdk-adapter/src/mcp_observer.ts:43-56 | a message of results gets to its end if and only if none is for a call already settled or answered by an earlier block |
| McpObserver.CallsAreReportedOnce | packages/claude-sdk-adapter/src/mcp_observer.ts:18-72 | without such messages each call has one "before", at most one "after", and exactly one right after closing |
| McpReports.ReportsRepeatTheMessages | packages/claude-sdk-adapter/src/mcp_observer.ts:27-55 | in every run a call's tool and arguments come from a use, its status, output and error from an answer; without one it is open or was closed |
| McpReports.AcceptedMessagesAreObserved | packages/claude-sdk-adapter/src/mcp_observer.ts:18-58 | in every run a message gets to its end if and only if it is ignored, or the session's and no block conflicts or repeats; its uses of known tools are then known calls, and the known calls it answers are settled as it says |
| McpObserver.HalfReadMessagesLoseAnnouncements | packages/claude-sdk-adapter/src/mcp_observer.ts:27-41 | a concrete message, then close: one "after" and no "before" |
| McpObserver.Observer.ConsumeMessage | packages/claude-sdk-adapter/src/mcp_observer.ts:18-58 | events are handed over only when the whole message was accepted; changes stay either way |
| FunctionBridge.ConfirmationsAreTrue | packages/claude-sdk-adapter/src/function_bridge.ts:28-96 | in every interleaving a call is confirmed at most once, with the delivery id of a result submitted for it before the native session showed content agreeing with it |
| FunctionBridge.MatchesFollowSubmissions | packages/claude-sdk-adapter/src/function_bridge.ts:47-84 | every confirmation follows the showing block, which follows the submission |
| FunctionBridge.CallsAreConfirmed | packages/claude-sdk-adapter/src/function_bridge.ts:28-84 | from every reachable state a new call, its result submitted, an agreeing block shown and the confirmation emitted, is confirmed with that delivery id and waits no longer; a failed emission in between changes nothing |
| FunctionBridge.Bridge.SubmitLine | packages/claude-sdk-adapter/src/function_bridge.ts:47-63 | a result is taken once, for a pending call |
| FunctionBridge.Bridge.ConsumeBlocks | packages/claude-sdk-adapter/src/function_bridge.ts:65-84 | confirms matching blocks in order and stops at the first that precedes or differs from its result, or whose emission fails, which leaves the call pending with its result |
| Messages.CompletedTextIsStreamed | packages/claude-sdk-adapter/src/messages.ts:18-70 | for every well-formed stream a completed message's text is the concatenation of the deltas emitted for its id |
| Messages.EverythingSaidIsStreamed | packages/claude-sdk-adapter/src/messages.ts:35-60 | for every stream, well-formed or not, the deltas emitted for a message are the opening texts and deltas that came in for it |
| Messages.RefusedExactlyWhenUnexpected | packages/claude-sdk-adapter/src/messages.ts:28-57 | an input is refused exactly when it starts a message without an id, comes outside a message, or is text for no open text block |
| Messages.MessagesCompleteWithAllTheirText | packages/claude-sdk-adapter/src/messages.ts:62-68 | the end of a message completes it exactly when text was started in it and no failure reported, on a well-formed stream with all the text that came in for it; nothing else completes a message |
| Messages.MessagesOpenWithTheirFirstText | packages/claude-sdk-adapter/src/messages.ts:43-54 | a message is announced with its first text block and at no other time |
| Messages.PutGrows | packages/claude-sdk-adapter/src/messages.ts:43-59 | adding to the latest block adds to the end of the text |
| Messages.RisingIsSorted | packages/claude-sdk-adapter/src/messages.ts:65 | sorting leaves blocks that started in order as they are |
| Messages.MessageObserver.ConsumeInput | packages/claude-sdk-adapter/src/messages.ts:18-70 | one event updates the active message and emits as modelled, or throws and changes nothing |
| CleanPaths.CleanMeansProper | internal/agentskill/bundle.go:54-61 | a relative name that cleaning leaves alone and that does not start with "", "." or ".." has no such part anywhere, and conversely |
| CleanPaths.DirIsParent | internal/agentskill/bundle.go:101 | the parent of a proper path drops its last part, and a single part's parent is "." |
| SkillBundle.Scan | internal/agentskill/bundle.go:48-92 | accepts exactly the admissible entries and keeps the regular files in order |
| SkillBundle.Walk | internal/agentskill/bundle.go:100-106 | the parent walk ends and finds a file above the path exactly when there is one |
| SkillBundle.Read | internal/agentskill/bundle.go:40-108 | accepts if and only if all checks hold; the list has distinct proper paths, no file above another, at most 20 MiB and the checked manifest |
| SkillBundle.OneManifest | internal/agentskill/bundle.go:85-95 | an accepted list has exactly one manifest at the top, and it is the checked one |
| SkillBundle.SoundListsLayOut | internal/agentskill/bundle.go:96-108 | every accepted list can be laid out as a tree without conflict, and the tree holds exactly its files |
| ShellQuote.QuotedIsOneWord | packages/claude-sdk-adapter/src/workspace.ts:145-147 | read by sections 2.2.1 and 2.2.2 of the POSIX.1-2017 Shell Command Language, the quoted form of any text is one word equal to it |
| ShellQuote.QuotedWordsReadBack | packages/mcode-harness/worker.ts:33-36 | any list of texts, quoted and separated by blanks, is read back as that list |
| ShellQuote.QuoteIsInjective | packages/claude-sdk-adapter/src/workspace.ts:145-147 | no two texts have the same quoted form |

## Left out

- Handlers, routing, authentication, databases, the web interface, the command line and build tooling: plumbing over libraries and stores.
- WebSocket, Docker, procfs, cgroup, zip, tar, YAML, JSON and SHA-256 internals: they appear as parameters or as facts about their results.
- Wall-clock timing: deadlines and timeouts are events that may happen at any point.
- Container profile and mount checks, lock files and record parsing of the placement controller: one yes-or-no answer each.
- Lease expiry by time: an expired row is only marked by the store and can still be renewed, so it adds no step to the fence.
- Permission and user-choice prompts, heartbeats and interaction acknowledgements of the session: they only add easy members.
- Server declarations of the tool profile (`parseHTTPServers`, `verifyRequired`) and workspace path permissions: single-branch checks.
- Registries.Registry.Register: sessions are compared by identity; device kinds and version strings are not modelled.
- Placement.ReinspectGrows: that a container keeps its creation time and image under its ID is assumed of the supervisor; the source compares those two once, before the stop.
- SessionObjects.Session.Close: states the result of closing alone; closing among other locked regions is `Gateway`'s machine.
- FileService.Service.Exchange: parsing a request and running a native operation are given outcomes; what each request computes is not modelled.
- Export.Walker.Walk: names are bytes; opening a child by name and reading a file are facts about the tree.
- WorkspaceWrite.Session.Write: the digest of the data is a parameter, and the one-slot reply channel is part of the list of exchanges.
- WorkspaceWrite.FramesFit: backspace and form feed are written in the six-byte form, which newer encoders shorten; texts are valid Unicode.
- WorkspaceExport.Reader.ReadInto: returns the bytes it would copy instead of writing into the caller's buffer.
- WorkspaceExport.Session.Export: the one-slot reply channel is part of the list of exchanges; a consumer is the sizes it reads with and its verdict.
- McpProfile.Profile.BeforeTool: decides in the state in which its wait ends; a call still waiting is not decided.
- McpProfile.ExpectedIsExact: texts are sequences of Unicode characters, so a character outside the basic plane becomes one underscore, not two.
- FunctionBridge.ConfirmationsAreTrue: an emission that fails is taken to have put nothing out.
- Messages.CompletedTextIsStreamed: messages of other kinds, and of nested sessions, are inputs that are ignored.
- SkillBundle.Read: the manifest's own validation is a parameter, and entries carry their decoded names and contents.
