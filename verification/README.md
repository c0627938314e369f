# Verification of the greendot storage target

greendot exports ZFS volumes over NVMe-oF. A root daemon edits the kernel's nvmet
tree in configfs; a web side reconciles its own exports there, and a Kubernetes CSI
driver attaches volumes to nodes through the same daemon. This project models the
parts that must not go wrong and proves what they promise, over every schedule of
requests, failures, crashes, reboots, initiators and controllers.

## What is modelled

**The attachment protocol.** `Nvmet` is the configfs tree with the kernel's write
guards; `Machine` is the target as an action system in which an action is enabled by
what is on disk and in the tree, so that a crash is just a run that stops issuing
actions. `Target`, `NvmetOps` and `Csi` are the daemon's own imperative code. Every
file operation may fail and initiators may come and go before it, as an oracle
decides, and the code is proved to issue only actions that `Machine` allows. The run
theorems in `Fencing`, `Interference`, `LegacyRuns` and `Handover` therefore hold of
the code. `Neighbours` compares targets that differ on the other side only.
`Controllers` and `Cluster` put any number of Kubernetes controllers on top, with
private, possibly old snapshots and requests that may be delayed, duplicated, reordered
or lost; `Restoration` runs a controller's pass against the target's own code.
`Witnesses` holds schedules of that code that cross the limits of what is promised.

**The reconcile loop.** `Render` computes the wanted state and allocates port ids,
`Reconcile` applies it in five phases and decides whether a pass is needed at all,
`ReconcileLoop` chains the two, `Settling` counts the passes it takes.

**Task streams.** `Tasks` is the producer with its deferred sink errors, `Reducer`
the consumer: records, live hub, stored row, collector.

**Smaller machines.** `Expand`, `Restore`, `Shrink`, `NfsFile`, `NfsApply` and
`NfsCheck`, `VolumeId` with `Base32`, and `TokenBucket`.

The kernel facts assumed are those the code states: unlinking a subsystem from a port
ends its controllers and nothing else does, the ACL is checked when an initiator
connects, and the write guards listed in `Nvmet`. The daemon's mutate lock makes
requests run one at a time.

## Where the code does not do what is said of it

For each of these there is an input or a run that shows the failure, and a statement
over all of them that says exactly when the property holds.

- "Retain the owner on any failure" (crates/greendotctl/src/csi.rs:219-220): the release
  can be on disk and the detach still be reported as failed. Over every run of a detach
  the owner stays on record until the release's rename takes effect, and from then on
  owner and export are both gone (`Fencing.ReleaseDecides`; the request itself:
  `Csi.Unpublish`). `Witnesses.SyncFailsAfterRelease` is a detach whose last sync alone
  fails.
- The comment at csi/pkg/driver/reconcile.go:14-16 and the driver's own documentation
  say that safety does not rest on the freshness of the attachment list. A list
  justifies fencing a live owner if and only if it is from before the owner's attachment
  was created (`Clusters.StaleListFencesIff`), and `Clusters.StaleListWouldFence` is such
  a history. `Clusters.NeverFencesLive` is about lists taken after the owner was read.
- The temporary file of volume `w` is the record of a volume named `w.tmp`
  (`Witnesses.TmpNameBreaksFence`, `Interference.OtherRecordKeptIff`).
- An open export that lists an initiator with a valid name is applied again on every pass
  (`Reconcile.IdleHostIsNeverSatisfied`); a pass is recognized as done if and only if
  there is none (`Reconcile.ConvergedIsSatisfied`, `ReconcileLoop.NoIdleHostsIff`).
- The drift check passes trees that are not as desired
  (`Reconcile.WrongServiceIsSatisfied`); what it does not look at is listed exactly in
  `Reconcile.SatisfiedIsConvergedIff`.
- A host-only revoke cuts off a connected host if and only if its sever step took effect,
  whatever it reports (`LegacyRuns.RevokeFencesIff`); `Witnesses.LegacyRevokeIsNoFence`
  ends with two hosts connected.
- Task framing needs a sink that stays failed once it failed
  (`Tasks.FailStopKeepsPrefix`, `Tasks.RecoveringSinkLosesEvents`). The daemon's own is
  not one: it gives up on a client that stalls and takes events again later
  (crates/greendotctl/src/main.rs:351-376). Even of a caller that returns at the first
  error, the end of the dropped subtask may arrive, and the grammar is broken exactly
  when its opening was lost (`Tasks.StoppedAtError`, `Tasks.StartIsLost`).
- "Every task ends with exactly one Finished whose status is the worst child"
  (crates/greendot-proto/src/lib.rs:80-81): a panic fails the task, while the drop of the
  open subtask finishes it as a success. The status is that of the worst child if and
  only if a child had failed before (`Tasks.WorstChildIff`, `Tasks.PanicInFirst`).
- A transport that is lost inside a subtask leaves its record without a status, and only
  then (`Reducers.TransportLost`, `Reducers.LostInFirst`); a panic leaves none open
  (`Reducers.PanickedTask`).
- A live NFS export whose removal failed is forgotten, because the file is rewritten
  first: no retry and no later apply takes it away (`NfsApply.FailedRemovalIsForgotten`,
  `NfsApply.RemovalFails`). A retry removes it if and only if the failed apply had not
  come to rewrite the file (`NfsApply.RetryRemovesIff`).
- "Whether actual NFS state realizes the desired state"
  (crates/greendotctl/src/render.rs:278-284): the check looks at paths, not at clients. An
  apply that failed after the file was written is tried again if and only if some wanted
  path is exported to nobody or nothing listens (`NfsCheck.RetriesIff`);
  `NfsCheck.ClientIsMissed` is a client that no later pass serves.
- The rate limiter is said to allow at most its capacity per window; that holds only of
  capacity one or none (`TokenBuckets.CapacityPerWindowIff`), and the bound that always
  holds is `TokenBuckets.RateBound`.
- Volume ids are called bijective with datasets (csi/pkg/driver/controller.go:106-108 and
  152-154). Ids that differ in case only resolve to one imported dataset and have two
  NQNs the daemon accepts (`VolumeIds.TwoImportedIds`), and a managed id may have a slash
  in it (`VolumeIds.SlashedId`), which the daemon refuses (`VolumeIds.SlashIsRefused`).
  `VolumeIds.CanonicalIff` says which ids are their dataset's own.
- The temporary btrfs mount stays behind in exactly the cases of `Shrink.MountStays`
  (`Shrink.Disk.Shrink`, `Shrink.MountLeaks`).

## Model

| member | source | states |
|---|---|---|
| Nvmet.RealmsDisjoint | crates/greendot-proto/src/types.rs:342-349 | no NQN is under both the web's and the CSI prefix |
| Fencing.ShapedRun | crates/greendotctl/src/nvmet.rs:237-252 | in every run CSI subsystems are closed and linked on the CSI port only, that port links nothing else, and controllers live on existing links |
| Fencing.FencingTheorem | crates/greendotctl/src/csi.rs:106-233 | in every run of generation requests, failures, crashes, reboots, connects and reconcile passes: a recorded owner means ACL and live controllers are its host's only, no owner means no subsystem, link or controller |
| Fencing.OneWriter | crates/greendotctl/src/csi.rs:106-233 | no two hosts ever hold live controllers on one volume |
| Fencing.NoResurrection | crates/greendotctl/src/csi.rs:112-126 | tombstones are never dropped, and a fenced generation that does not own the volume never owns it again |
| Fencing.FencedPublishIsInert | crates/greendotctl/src/csi.rs:112-161 | once a generation is fenced, no publish of it, for whatever host and however late, touches the tree or the record again |
| Fencing.OrderedTransfer | crates/greendotctl/src/csi.rs:201-232 | the owner changes only through a state where the old generation is fenced, nobody owns the volume, and subsystem, link and controllers are gone |
| Fencing.StaleRequestsHarmless | crates/greendotctl/src/csi.rs:112-218 | requests of other generations, however late or often and across reboots, leave the owner, its subsystem and its link as they are |
| Fencing.ReleaseDecides | crates/greendotctl/src/csi.rs:164-233 | at every point of the owner's detach, however it fails: if the rename of the release took effect there is no owner, no export and no link, otherwise the owner is on record |
| Fencing.NoWebLinkOnCsiPort | crates/greendotctl/src/nvmet.rs:237-252 | in every run from the empty target no web subsystem is linked on the CSI port |
| Frames.RequestSpares | crates/greendotctl/src/nvmet.rs:37-92 | at every point of a request, finished or not: a pass has spared foreign subsystems, links and addresses, a CSI request everything outside the CSI subsystems and port |
| Interference.NonInterference | crates/greendotctl/src/nvmet.rs:182-361 | in any interleaving each side's subsystems and ports are exactly what replaying its own recorded operations makes them |
| Interference.EitherSideAlone | crates/greendotctl/src/nvmet.rs:182-361 | from the empty target on, each side's operations without the other's would all have been accepted by the kernel |
| Neighbours.EitherSideOfTarget | crates/greendotctl/src/nvmet.rs:182-361 | so it is of every target that started empty, whatever it served and however that failed |
| Neighbours.CsiDecidesAlike | crates/greendotctl/src/csi.rs:106-218 | what a CSI request decides depends on its records and on the CSI side's objects only |
| Neighbours.PublishesAgree | crates/greendotctl/src/csi.rs:106-162 | beside different web objects a publish is admitted alike; where neither fails, and in any case where no operation does, the CSI objects and the record end up alike |
| Neighbours.UnpublishesAgree | crates/greendotctl/src/csi.rs:164-233 | likewise a detach |
| Interference.OtherVolumeRun | crates/greendotctl/src/nvmet.rs:287-361 | a whole request on one volume keeps every other volume's subsystem and record, and its link unless it exports |
| Interference.OtherRecordKeptIff | crates/greendotctl/src/csi.rs:32-49 | a volume's record is out of reach of another's requests if and only if it is not the other's temporary file |
| LegacyRuns.MixedRuns | crates/greendotctl/src/csi.rs:69-104 | with host-only requests mixed in, at most one host is granted, and a recorded owner shares with nobody |
| Witnesses.LegacyRevokeIsNoFence | crates/greendotctl/src/nvmet.rs:408-436 | host-only requests of which one sever step fails end with two hosts connected |
| LegacyRuns.RevokeFencesIff | crates/greendotctl/src/nvmet.rs:408-436 | at every point of a host-only revoke a controller it found is gone if and only if its sever step took effect |
| Witnesses.TmpNameBreaksFence | crates/greendotctl/src/csi.rs:37 | a publish of `w` whose rename fails breaks the fence of `w.tmp` |
| Targets.Target.Do | crates/greendotctl/src/nvmet.rs:559-601 | one configfs operation takes full effect exactly when it neither fails nor is refused by the kernel's guard, and none otherwise; it extends the legal run |
| Targets.Target.PutTmp | crates/greendotctl/src/csi.rs:37-46 | writes the temporary file and nothing else |
| Targets.Target.Commit | crates/greendotctl/src/csi.rs:47 | the rename replaces the record in one step, and only by a claim, a tombstone or a release |
| NvmetOps.ApplyNamespace | crates/greendotctl/src/nvmet.rs:160-180 | on success the namespace has device and uuid, the old uuid when none is asked for, and is enabled; one that matches is never taken down; no write is refused; only that namespace changes |
| NvmetOps.ApplyPort | crates/greendotctl/src/nvmet.rs:185-235 | on success address and links are exactly right; at the right address no link is lost whatever fails; no refused write unless a foreign link holds a port that must move |
| NvmetOps.DeleteSubsystem | crates/greendotctl/src/nvmet.rs:104-112 | removes just this subsystem, and can only be refused while it is linked |
| Csi.Save | crates/greendotctl/src/csi.rs:32-49 | the record is the new one exactly when everything up to the rename worked, and the old one otherwise; success needs the sync too; no other volume's file changes |
| Csi.CsiApply | crates/greendotctl/src/nvmet.rs:287-324 | on success all subsystems and ports are as before but for this export, closed, backed, addressed and bound; the ACL survives; other links go exactly when the port moves |
| Csi.HostGrant | crates/greendotctl/src/nvmet.rs:365-389 | grants only while no other host is listed, and otherwise changes no subsystem |
| Csi.CsiDelete | crates/greendotctl/src/nvmet.rs:330-361 | on success subsystem and link are gone, the port too if it was the last, and nothing else changed; no refused operation when the volume is linked on the CSI port only |
| Csi.Claim | crates/greendotctl/src/csi.rs:112-150 | claims the record exactly when the generation is admitted; a refused publish writes nothing |
| Csi.Publish | crates/greendotctl/src/csi.rs:106-162 | a generation that is fenced or not the owner changes nothing; success means exported, granted to its host only, on record, and nothing else changed; nothing opens before the claim is durable; succeeds when nothing fails |
| Csi.Fence | crates/greendotctl/src/csi.rs:170-214 | the tombstone is written exactly when the detach is admissible, adopting an old export whose only host detaches |
| Csi.Unpublish | crates/greendotctl/src/csi.rs:164-233 | a detach that does not name the owner leaves the tree alone; the record ends as it was, tombstoned with the owner kept, or released with the export gone; without a failure it is released if this generation owned the volume; a failed last sync is reported after the release |
| Csi.DeleteExport | crates/greendotctl/src/csi.rs:80-94 | refused while a generation owns the volume; success means the export is gone |
| Csi.HostOnlyApply | crates/greendotctl/src/exec.rs:209-220 | refused once the volume has a record; grants survive |
| Csi.HostOnlyGrant | crates/greendotctl/src/exec.rs:289-297 | refused once the volume has a record; success means one host is listed |
| Csi.HostOnlyRevoke | crates/greendotctl/src/nvmet.rs:408-436 | unless refused, all three steps are taken and each depends on its own operation only, but for a link that was not severed; which end each leaves; when none failed the host is unlisted and its controllers are gone |
| Handover.TargetFenced | crates/greendotctl/src/csi.rs:106-233 | every target that served only generation requests and passes is fenced, whatever failed |
| Handover.RequestFrame | crates/greendotctl/src/nvmet.rs:287-389 | since the request under way began, web objects and foreign ports are untouched, and of other volumes it shares no file name with, subsystem and record; their link can only be dropped |
| Handover.HandOver | crates/greendotctl/src/csi.rs:106-233 | from every reachable state, unpublishing the owner and publishing any unfenced generation succeeds once nothing fails, without a refused operation |
| Witnesses.SyncFailsAfterRelease | crates/greendotctl/src/csi.rs:219-233 | a detach, from a reachable state, whose last sync alone fails: reported as failed with no owner on record |
| Controllers.AttachmentId | csi/pkg/driver/attachments.go:21-67 | the UID is that of the one matching attachment; an error exactly for unreadable, missing-UID, ambiguous, or absent-while-publishing |
| Controllers.ReconcileVolume | csi/pkg/driver/reconcile.go:54-109 | what is sent is a beginning of one sequence determined by owner and list, the whole of it on success, and cut short only by a refused request or an attachment without UID or host; a dead owner is retired first |
| Controllers.AllRequestsFit | csi/pkg/driver/reconcile.go:60-109 | every request of that sequence is justified by the owner and the list, and together they attend to every attachment |
| Restoration.Restore | csi/pkg/driver/reconcile.go:14-109 | from any state a disciplined target can be in, rebooted or not, one pass served while nothing fails ends with the sole attached generation on record, exported, and its host alone in the ACL |
| Clusters.InvReached | csi/pkg/driver/reconcile.go:54-109 | in every history lists, requests and records stay truthful about which attachments are gone |
| Clusters.RecordWasSent | crates/greendotctl/src/csi.rs:106-233 | every owner on record was published and every tombstone was asked for |
| Clusters.NeverFencesLive | csi/pkg/driver/reconcile.go:60-81 | with any number of controllers and any message fate, no unpublish in flight and no tombstone names a live attachment |
| Clusters.ClusterIsFenced | csi/pkg/driver/reconcile.go:14-109 | the fence holds of every volume in every such history |
| Clusters.StaleListWouldFence | csi/pkg/driver/reconcile.go:60-69 | a history in which a list from before the owner was read justifies fencing a live attachment |
| Clusters.StaleListFencesIff | csi/pkg/driver/reconcile.go:60-69 | for every list and every live owner on record: the list justifies fencing it if and only if it is from before its attachment was created |
| Sorting.SortedUnique | crates/greendotctl/src/render.rs:65-115 | the order of the keys determines the rendered sequence |
| Render.ListenAddrs | crates/greendot-proto/src/desired.rs:96-114 | the sorted, duplicate-free addresses of the pinned interfaces, or the default when none is pinned |
| Render.PushAll | crates/greendotctl/src/render.rs:65-83 | an export joins exactly the groups of its transport and addresses |
| Render.AssignIds | crates/greendotctl/src/render.rs:84-115 | the ids are the smallest unreserved ones from 1 up, in order |
| Render.IdBound | crates/greendotctl/src/render.rs:84-115 | the n-th id is at most n plus the number of reserved ids, which bounds the 16-bit counter |
| Render.RenderNvmet | crates/greendotctl/src/render.rs:37-116 | one subsystem per valid enabled export; exactly one port per transport and address somebody wants, linking exactly who wants it |
| Render.RenderUnique | crates/greendotctl/src/render.rs:37-116 | the exports and the reserved ids up to the largest one used determine the rendered state |
| ReconcileLoop.WantedIff | crates/greendotctl/src/render.rs:65-83 | an NQN is linked at a port if and only if an enabled valid export wants that transport and resolves to that address |
| ReconcileLoop.LinkedOnce | crates/greendotctl/src/render.rs:65-83 | and, with distinct names, only once |
| ReconcileLoop.RenderedIsSound | crates/greendotctl/src/render.rs:37-116 | rendering stays in the web's realm, off the CSI port, and links only what it declares |
| ReconcileLoop.NoIdleHostsIff | crates/greendotctl/src/render.rs:37-64 | in terms of the exports: no enabled valid open export lists an initiator with a valid name |
| ReconcileLoop.WebDecidesAlike | crates/greendotctl/src/reconcile.rs:191-296 | what a pass renders, whether it skips and whether a port is blocked depend on the web's objects only |
| Reconcile.ApplySubsystem | crates/greendotctl/src/nvmet.rs:114-155 | on success access, hosts and namespaces are exactly as specified; no write is refused, from any starting tree |
| Reconcile.DropStaleLinks | crates/greendotctl/src/nvmet.rs:42-59 | phase A removes exactly the stale web links and reports exactly the ports that lost one |
| Reconcile.DeleteStale | crates/greendotctl/src/nvmet.rs:61-66 | phase B removes exactly the web subsystems not desired, none of them linked |
| Reconcile.ApplySubsystems | crates/greendotctl/src/nvmet.rs:68-71 | phase C realizes every desired subsystem and leaves every other as it was |
| Reconcile.ApplyPorts | crates/greendotctl/src/nvmet.rs:73-76 | phase D addresses and binds every desired port and changes no other; where no operation fails it halts only at the first port a foreign link holds, and what it leaves then is determined |
| Reconcile.ReapPorts | crates/greendotctl/src/nvmet.rs:78-85 | phase E removes exactly the ports that lost a link, are empty and not desired, and whatever fails no other |
| Reconcile.ApplyDesired | crates/greendotctl/src/nvmet.rs:37-92 | success means converged, from any tree, with every port determined by what it was and what is desired; no refused write unless a foreign link holds a port that must move, and where no operation fails the end is determined then too |
| Reconcile.ConvergedIsSatisfied | crates/greendotctl/src/render.rs:380-447 | a converged tree passes the drift check if and only if no open export lists hosts |
| Reconcile.IdleHostIsNeverSatisfied | crates/greendotctl/src/render.rs:380-447 | a converged tree with an open export that lists a host and does not pass |
| Reconcile.SatisfiedIsConvergedIff | crates/greendotctl/src/render.rs:380-447 | a tree that passes the drift check is converged if and only if its network ports have the right service id and family, wanted ports without links exist, and there are no namespaces but 1 |
| Reconcile.WrongServiceIsSatisfied | crates/greendotctl/src/render.rs:380-447 | a tree with a port on the wrong service id that passes |
| ReconcileLoop.ReservedIsStable | crates/greendotctl/src/render.rs:124-135 | up to the largest id used, a converged tree reserves the same ids as the tree it was rendered from |
| ReconcileLoop.ReconcilePass | crates/greendotctl/src/reconcile.rs:191-296 | one pass: rendered from the live tree, skipped exactly when satisfied, converged on success, nothing foreign touched even on failure |
| ReconcileLoop.PassTwice | crates/greendotctl/src/reconcile.rs:191-296 | the next pass renders the same state and has nothing to do, unless an open export lists hosts |
| ReconcileLoop.PassesAgree | crates/greendotctl/src/reconcile.rs:191-296 | beside different CSI objects a pass renders the same state and skips alike; where neither fails, and in any case where no operation does, the web's objects end up alike, with the same status |
| Settling.QuietPass | crates/greendotctl/src/reconcile.rs:191-296 | where no operation fails, a pass fails if and only if there is drift and a foreign link holds a port that must move; then there is one port fewer with links of both |
| Settling.PassesUntilDone | crates/greendotctl/src/render.rs:117-135 | from any tree, once no operation fails, it takes at most one pass more than there are ports with links of the web and of others |
| Settling.HeldPort | crates/greendotctl/src/nvmet.rs:182-235 | a tree from which one pass is not enough |
| Tasks.VerdictMeaning | crates/greendot-proto/src/types.rs:475-487 | a task failed if and only if a child did, was skipped if and only if all were, and carries the first message of a failed child |
| Tasks.FramedIsGrammatical | crates/greendot-proto/src/lib.rs:78-93 | framed streams obey the event grammar |
| Tasks.GrammaticalIsFramed | crates/greendot-proto/src/lib.rs:78-93 | every stream that obeys the grammar is framed, in children read off the stream |
| Tasks.PrefixIsGrammatical | crates/greendot-proto/src/lib.rs:78-93 | a stream cut off anywhere still obeys the grammar, and only its last event can be terminal |
| Tasks.FailStopKeepsPrefix | crates/greendot-proto/src/lib.rs:190-210 | for every sequence of calls over a fail-stop sink, what was accepted is a prefix of what was produced |
| Tasks.RecoveringSinkLosesEvents | crates/greendot-proto/src/lib.rs:204-209 | over any sink that recovers, some legal sequence of calls delivers a later event without an earlier one |
| Tasks.StoppedAtError | crates/greendot-proto/src/lib.rs:208-284 | over any sink, of a caller that stops at the first reported error: what arrived is a beginning of what was produced, perhaps followed by the end of the dropped subtask; exactly when that breaks the grammar |
| Tasks.StartIsLost | crates/greendotctl/src/main.rs:351-376 | a sink that is full once delivers the end of a subtask whose opening was lost |
| Tasks.Task.EmitSoft | crates/greendot-proto/src/lib.rs:196-202 | the first error is kept and mutes later soft events |
| Tasks.Task.BeginSubtask | crates/greendot-proto/src/lib.rs:118-144 | opens one subtask, with or without a command header |
| Tasks.Task.SkippedSubtask | crates/greendot-proto/src/lib.rs:148-156 | records one finished, skipped child without output |
| Tasks.Task.FinishSubtask | crates/greendot-proto/src/lib.rs:176-186 | closes the open subtask into one child and keeps the folded status and first error |
| Tasks.Task.Write | crates/greendot-proto/src/lib.rs:293-305 | adds one event to the open subtask; an error kept back surfaces here |
| Tasks.Task.CompleteTask | crates/greendot-proto/src/lib.rs:166-171 | over a fail-stop sink the accepted stream is grammatical, and completion succeeds if and only if all of it arrived, ending in the verdict on the children |
| Tasks.SubTask.SetResult | crates/greendot-proto/src/lib.rs:253-256 | the result is carried by the open subtask |
| Tasks.SubTask.CompleteSub | crates/greendot-proto/src/lib.rs:259-261 | ends the subtask with the status and the recorded result |
| Tasks.SubTask.Finish | crates/greendot-proto/src/lib.rs:269-283 | a subtask finishes once, dropping it afterwards does nothing |
| Tasks.SubTask.Fail | crates/greendot-proto/src/lib.rs:264-267 | ends the subtask as failed with the message |
| Tasks.Panic | crates/greendotctl/src/main.rs:399-440 | a panic inside a subtask: its drop finishes it as a success, then the daemon adds the failed terminal event |
| Tasks.ReportPanic | crates/greendotctl/src/main.rs:420-435 | the terminal event of a panic follows whatever the sink took |
| Tasks.WorstChildIff | crates/greendot-proto/src/lib.rs:78-84 | the status of a task that panicked is that of its worst child if and only if a child had failed before |
| Tasks.PanicInFirst | crates/greendot-proto/src/lib.rs:280-284 | a failed task whose only child is a success |
| Reducers.JoinAnywhere | crates/greendot-web/src/task_runner.rs:92-117 | a snapshot and the later events fold to the records of the full stream, for every join point |
| Reducers.FlatIsAllOutput | crates/greendot-web/src/task_runner.rs:58-69 | for any stream the flat buffers of the records are all output, in order |
| Reducers.RecordsOfFramed | crates/greendot-web/src/task_runner.rs:16-56 | folding a framed stream gives one record per subtask with exactly its own output |
| Reducers.TaskHub.Register | crates/greendot-web/src/task_runner.rs:82-91 | a new channel with no records |
| Reducers.TaskHub.Broadcast | crates/greendot-web/src/task_runner.rs:93-100 | records, log and every subscriber of the task advance together; one that is 512 events behind loses its oldest, and one that lost none has records and events that fold to those of the task |
| Reducers.TaskHub.Unregister | crates/greendot-web/src/task_runner.rs:102-104 | the task is forgotten, its subscribers keep what they have |
| Reducers.TaskHub.SnapshotAndSubscribe | crates/greendot-web/src/task_runner.rs:106-117 | a subscriber starts with the records so far and misses nothing after |
| Reducers.TaskHub.Receive | crates/greendot-web/src/routes/tasks.rs:198-207 | a subscriber takes its events in order, skipping those it lost |
| Reducers.FlatOutput | crates/greendot-web/src/task_runner.rs:58-69 | the loop concatenates the records' output |
| Reducers.Collect | crates/greendot-web/src/helper_client.rs:44-59 | all output before the terminal event, and its verdict |
| Reducers.Drive | crates/greendot-web/src/task_runner.rs:190-274 | the stored row, summary line, outcome and broadcast for any stream, with either database write failing |
| Reducers.RowIsCollected | crates/greendot-web/src/task_runner.rs:58-69 | for any stream the stored buffers equal what the collector concatenates |
| Reducers.WholeTask | crates/greendot-web/src/task_runner.rs:216-240 | the row of a complete task has one finished record per child, is ok if and only if no child failed, and carries the first error and all output |
| Reducers.CutTask | crates/greendot-web/src/task_runner.rs:245-274 | a stream cut short anywhere is stored as failed and leaves no record open |
| Reducers.AbruptFinish | crates/greendot-web/src/helper_client.rs:108-164 | a terminal event added to a stream that broke off leaves a record open if and only if it comes inside a subtask |
| Reducers.PanickedTask | crates/greendotctl/src/main.rs:399-440 | wherever the worker panicked the row is failed with the message and every record is closed, the interrupted one as a success |
| Reducers.TransportLost | crates/greendot-web/src/helper_client.rs:108-164 | of any stream that is cut off the row is failed, and a record stays open if and only if a subtask was open |
| Reducers.LostInFirst | crates/greendot-web/src/helper_client.rs:108-164 | a transport lost inside the first subtask leaves its record open |
| Reducers.Forward | crates/greendot-web/src/helper_client.rs:108-164 | the forwarded stream always ends in exactly one terminal event, the helper's or a failure |
| Expand.Volumes.ExpandVolume | crates/greendotctl/src/nvmet.rs:484-544 | what one request may change, and that a task that does not fail leaves the size reached and an enabled export told |
| Expand.NeverShrinks | crates/greendotctl/src/nvmet.rs:437-440 | over every sequence of new, old, retried and half failed requests no volume shrinks |
| Expand.GrowthIsKept | crates/greendotctl/src/nvmet.rs:484-544 | what a successful request reached holds for ever after |
| Expand.RetryRepairs | crates/greendotctl/src/nvmet.rs:523-544 | a retry after a failed revalidate, however much later, repairs the export without a second resize |
| Expand.NoExportAppears | crates/greendotctl/src/nvmet.rs:523-544 | over every sequence of requests growing creates no export and changes only what size an export was told |
| Restore.ProbeTells | crates/greendotctl/src/zfs.rs:168-196 | the probe yields the size if and only if request, source, size and origin all match |
| Restore.Pool.RestoreClone | crates/greendotctl/src/zfs.rs:114-166 | what one attempt may change, when it succeeds, and that a failed read cannot overwrite a target |
| Restore.ProvenanceIsFixed | crates/greendotctl/src/zfs.rs:114-166 | over every sequence of attempts a target keeps origin and provenance and never shrinks |
| Restore.OneOwner | crates/greendotctl/src/zfs.rs:168-196 | a target matches one request, source and size only |
| Restore.OthersAreInert | crates/greendotctl/src/zfs.rs:114-166 | after the first clone that took effect, though its attempt failed afterwards, every differing attempt changes nothing and fails |
| Restore.SuccessIsKept | crates/greendotctl/src/zfs.rs:114-166 | success means the right origin and at least the size asked for, from then on |
| Shrink.Disk.ShrinkExt | crates/greendotctl/src/fs.rs:155-170 | checks before it shrinks; success means the filesystem fits the new size |
| Shrink.Disk.ShrinkBtrfs | crates/greendotctl/src/fs.rs:171-196 | success means it fits and is unmounted; the temporary mount stays behind if and only if MountStays |
| Shrink.Disk.Shrink | crates/greendotctl/src/fs.rs:126-202 | at every step the filesystem lies inside its partition; the boundary moves at most once, last, with nothing mounted and the filesystem already inside; exactly when the temporary mount is left behind |
| Shrink.MountLeaks | crates/greendotctl/src/fs.rs:171-196 | a mount that took effect but reported a failure is never undone |
| NfsFile.RenderExports | crates/greendotctl/src/nfs.rs:28-42 | prints the file line by line, skipping exports without clients |
| NfsFile.ReadManaged | crates/greendotctl/src/nfs.rs:68-89 | reads the pairs of every line, nothing from comments, blanks or a missing file |
| NfsFile.FileRoundTrip | crates/greendotctl/src/nfs.rs:28-89 | for all valid paths and clients, reading the printed file gives exactly the pairs, in order |
| NfsApply.NfsServer.Apply | crates/greendotctl/src/nfs.rs:126-210 | pairs neither managed nor wanted are never touched; a status other than failed means the table is the old one minus dropped pairs plus wanted ones; the file is rewritten before the table is touched |
| NfsApply.NfsServer.EnsureListener | crates/greendotctl/src/nfs.rs:106-120 | the listener is added once and no other line is lost |
| NfsApply.NextApply | crates/greendotctl/src/nfs.rs:64-89 | after an apply that succeeded, the next one that does takes away exactly what is no longer wanted |
| NfsApply.UnlistedIsKept | crates/greendotctl/src/nfs.rs:126-210 | a live pair that is neither listed nor wanted outlasts every later apply, failed or not |
| NfsApply.FailedRemovalIsForgotten | crates/greendotctl/src/nfs.rs:136-160 | a pair still live once the file was rewritten without it is never taken away again |
| NfsApply.RetryRemovesIff | crates/greendotctl/src/nfs.rs:136-160 | a retry removes a pair whose removal failed if and only if the failed apply had not rewritten the file |
| NfsApply.RemovalFails | crates/greendotctl/src/nfs.rs:136-160 | an apply that rewrites the file and then removes nothing |
| NfsApply.AgainIsSame | crates/greendotctl/src/nfs.rs:126-210 | applying the same exports again changes nothing |
| NfsCheck.SpecsRoundTrip | crates/greendot-proto/src/actual/nfs.rs:64-90 | for all valid exports, reading the printed file gives exactly paths, clients and access modes, in order |
| NfsCheck.CheckIff | crates/greendotctl/src/render.rs:278-298 | once the file is written, the check passes if and only if every wanted path is exported to somebody and something listens |
| NfsCheck.AppliedPasses | crates/greendotctl/src/render.rs:278-298 | an apply that succeeded passes the check |
| NfsCheck.PassNfs | crates/greendotctl/src/reconcile.rs:240-295 | a pass applies exactly when the check fails and otherwise changes nothing |
| NfsCheck.RetriesIff | crates/greendotctl/src/render.rs:278-298 | exactly when a pass tries again after an apply that failed once the file was written |
| NfsCheck.ClientIsMissed | crates/greendotctl/src/render.rs:278-298 | a wanted client that is not served, however many passes follow |
| Base32.RoundTrip | csi/pkg/driver/controller.go:152-159 | decoding undoes encoding for all byte strings |
| Base32.EncodesNumber | csi/pkg/driver/controller.go:152-159 | the digits are the bytes as one number, shifted by fewer than five filling bits, as section 7 of RFC 4648 has it |
| Base32.CanonicalIff | csi/pkg/driver/controller.go:152-159 | any text that decodes, with upper case, line breaks or odd lengths too, is the encoding of what it decodes to if and only if it is lower case and has fewer than five bits of filling, all zero |
| VolumeIds.ManagedRoundTrip | csi/pkg/driver/controller.go:243-293 | every managed id handed out resolves to its dataset, as managed |
| VolumeIds.ImportedRoundTrip | csi/pkg/driver/controller.go:364-390 | every imported id handed out resolves to its dataset, as imported |
| VolumeIds.DistinctVolumes | csi/pkg/driver/controller.go:106-201 | ids and NQNs coincide if and only if dataset and kind do; managed and imported ids never do |
| VolumeIds.CanonicalIff | csi/pkg/driver/controller.go:106-199 | an id that resolves is its dataset's own if and only if: managed, it has no slash; imported, its text is canonical |
| VolumeIds.TwoImportedIds | csi/pkg/driver/controller.go:152-192 | two ids of one imported dataset, with two NQNs that the daemon accepts |
| VolumeIds.SlashedId | csi/pkg/driver/controller.go:106-125 | two managed ids of one dataset |
| VolumeIds.SlashIsRefused | crates/greendot-proto/src/validate.rs:32-49 | the daemon refuses the NQN of every id with a slash |
| VolumeIds.DaemonAgrees | crates/greendotctl/src/nvmet.rs:496-512 | on ids with a separator the daemon finds the dataset the controller does, and none for imported ids |
| VolumeIds.DaemonAccepts | crates/greendot-proto/src/validate.rs:32-49 | every NQN handed out is one the daemon accepts as a CSI name |
| TokenBuckets.RateLimiter.Allow | crates/greendotctl/src/pam.rs:35-46 | one call, with tokens kept between zero and the capacity |
| TokenBuckets.Bounded | crates/greendotctl/src/pam.rs:24-46 | over any sequence of calls the tokens stay between zero and the capacity |
| TokenBuckets.Spent | crates/greendotctl/src/pam.rs:35-46 | every token spent was there at the start or flowed in since |
| TokenBuckets.CapacityPerWindowIff | crates/greendotctl/src/pam.rs:16 | "at most capacity per window" holds if and only if the capacity is at most one; a larger limiter allows one more within a fraction of the window |
| TokenBuckets.RateBound | crates/greendotctl/src/pam.rs:24-46 | the calls allowed within any span of time are at most the capacity plus the span's share of it |

## Left out

- Csi.Publish: starts after module loading and the wait for the device node (crates/greendotctl/src/exec.rs:222-253), which change no modelled state.
- Clusters.NeverFencesLive: assumes fresh UIDs, irreversible deletion, lists that show one instant, one PersistentVolume per volume, no command-line attachment override, and identifies a volume handle with its NQN.
- Controllers.AttachmentId: begins after the override and the list call; failures of those are plain errors.
- Reconcile.ApplyDesired: configfs directories are maps and sets, so the order of directory entries is not modelled and port directories are named by numbers.
- Targets.Target.Do: a read error of a directory reads as empty in the code; in the model reads do not fail there, and the recursive fallback of directory removal is not modelled.
- Render.RenderNvmet: addresses are compared as values, not as text, and the 16-bit overflow of the id counter is the bound of Render.IdBound, not a wrap-around.
- ReconcileLoop.PassTwice: assumes distinct export names; the store that guarantees them is not modelled.
- ReconcileLoop.ReconcilePass: covers the NVMe-oF area of a pass only, and takes the tree that is read and the tree that is written to be the same.
- ReconcileLoop.PassesAgree: where a file operation fails midway only the frame and the replay are stated, because the model's loops take directory entries in any order, where the source sorts them, and so do not determine how far they had come; so for Neighbours.PublishesAgree and Neighbours.UnpublishesAgree.
- Settling.PassesUntilDone: nobody else changes the tree between the passes.
- Tasks.Panic: the poisoning of the mutate lock, for the operations after a panic, is not modelled.
- Restoration.Restore: one attachment in the list, and a target on which nothing fails.
- Tasks.Task.Write: event data is text already; the lossy decoding of bytes is not modelled.
- Reducers.Drive: runs one stream at a time; other streams on the same hub are covered by the hub's invariant only.
- Expand.Volumes.ExpandVolume: the text output of the size command is modelled as the size it prints.
- Restore.Pool.RestoreClone: the probe's output is modelled as rows of fields, not as lines with tabs.
- Shrink.Disk.Shrink: assumes that nobody else mounts or resizes the partition meanwhile, and that a tool never grows a filesystem past its device.
- Base32.CanonicalIff: the Go library's decoder and its upper-casing are modelled as the library specifies them; they are not part of the repository.
- VolumeIds.ManagedRoundTrip: takes the name after template expansion.
- TokenBuckets.RateLimiter.Allow: computes over reals, so floating-point rounding is not modelled.
- Conversions between wire messages and operations, which copy fields.
- The web pages, the desktop shell, sessions, TLS pinning and the HTTP client.
- iSCSI, LVM, partition, SMART and module-loading commands, which only build arguments.
- PAM, peer credentials, group lookup, the SSH tunnel and its key list.
- Timeouts, polling intervals, context cancellation and logging.
