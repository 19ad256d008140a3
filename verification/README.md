# Hubinet Ops: at-most-once host operations, modelled and proved in Dafny

Hubinet Ops updates the packages of a Proxmox LXC guest from a backend that can die at any moment,
through host helpers that can die at any moment, on a host that can lose power. This project models
how it still runs a destructive command at most once, how it knows when it never will, what plan it
may run, and when it may call the result healthy; and it proves what the design promises about that,
or exactly when a promise does not hold.

`dafny verify dfyconfig.toml` checks everything (Dafny 4.11).

## Modules

| module | what it models |
|---|---|
| `SubmissionProtocol`, `SubmissionInvariant`, `SubmissionRuns`, `SubmissionSafety`, `SubmissionIdentity` | the submission protocol as a transition system over one journal record: any number of helpers and runners, requests delivered late or twice, lease ownership shared across fork, helper crash, runner kill, backend crash, power loss |
| `TaskIdentity` | the reading of one task identity out of the runner's captured answer |
| `DurableFiles`, `Journal`, `SharedTemporary`, `DurableDirectories` | a file system with volatile and durable state, the journal's atomic write, any number of writers of one record with their system calls interleaved, the rollback runner's capture, and the directory chain created against racing creators |
| `MutationOrchestrator`, `RollbackOrchestrator`, `PollLoop`, `BackendRefinement`, `Clocks` | one backend invocation among any number of concurrent ones, against an authority of atomic transactions and a host that may answer anything; the proof-carrying poll loop; the mutation backend as a refinement of the submission protocol's backend |
| `ActionGate`, `AptPlan`, `DpkgReaders`, `PlanFingerprint`, `JsonText`, `Packages`, `Text`, `Ordering` | the exact-plan pipeline: manifest and pre-dpkg gate, simulation parser, the two dpkg readers, the digested plan text |
| `SystemdBatch`, `HealthSettling`, `HealthVerdict` | one batched health round, the bounded settling window, and what the backend makes durable |
| `ExceptionWalk`, `UpdateWorker`, `ScanScheduler` | the bounded exception walk, the worker's drive loop, the scheduler's cadence |

## The transition system

`SubmissionProtocol` states the steps; both helpers run the same barrier, so one system carries a
`Kind`. Where each step comes from:

- `Arm`, `SendExecute`, `ReleaseJob`: app/inventory/authority.py lines 3795, 4021 and 4221 (and their
  rollback counterparts at 5145, 5330 and 5532). A mutation is sent only by the invocation that armed, which
  `BackendRefinement` proves of the invocations; a rollback may be sent again by any.
- `Acquire`, `Leave`, `Die`, `LockAfterClose`, `LockAfterUnlock`: deploy/hubinet-package-mutation-helper.py lines
  1198 to 1262. The lock belongs to the open file description, so an unlock frees it for both
  sides of the fork and a close only for the last holder.
- `ReadJournal`, `AfterRead*`: lines 1693 to 1797 and 1968 to 2038 of the same file; deploy/hubinet-package-rollback-helper.py
  lines 1709 to 1833.
- `Fork`, `Ready`, `ReleaseRunner`, `Launch`, `RefuseLaunch`, `RunnerPlace`: lines 2095 to 2137, 2140 to 2353 and
  2365 to 2456 of the mutation helper; lines 1368 to 1596 and 1870 to 1944 of the rollback helper.
- `Place`, `SyncDirectory`: the rename and the directory fsync of one journal write (lines 1164 to 1195). In between, the
  visible and the durable record differ. That one writer's write is atomic is what `Journal` proves.
- `ReadCapture`, `CleanupCapture`, `ClassifyTask`: rollback helper lines 1608 to 1706.
- `Overlap`, `OverlapRunner`, `Smear`, `SmearRunner`: two processes have `op-<id>.json.tmp` open together (line 1167 of
  the mutation helper gives every writer the same name). From then on a rename by either may publish its own record, the
  other's, what a lease holder that died in the file left there (`left`), or a torn record that no reader accepts; and a
  writer still in the file may damage what another one published. `SharedTemporary` is the file system's side of this.

Phase monotonicity is not assumed anywhere: a late `submitted` write over a later record, and a
`task_known` write after the lease is gone, are ordinary steps.

## Findings

The physical promises hold over every run: one launch at most, only with the accepted digest, only
over a durable record that no submitter starts from, and no seal once launched. Three promises do not
hold as coded. For each there is a theorem that says exactly when it holds, and a lemma that reaches
the failing run from the initial state.

1. **A seal answer can be forgotten by a power loss.** A seal request that finds the record already
   sealed answers without writing, and so without any fsync of the record's directory
   (deploy/hubinet-package-mutation-helper.py lines 1773 and 1793 to 1797, and
   deploy/hubinet-package-rollback-helper.py lines 1764 to 1770). If the helper that
   wrote that seal died between rename and directory fsync, the answer releases the job while the disk still
   holds `absent` or `intent`; after a power loss a late execute request submits.
   `SubmissionSafety.SealAnswerIsFinal`: with an execute request sent, no launch follows a seal
   answer if and only if the durable record forbade submission when the answer was given.
   `OwnSealIsFinal`: every answer a helper gives after its own write meets that.
   `SubmissionRuns.UnforcedSealIsReachable` is the failing run, for both kinds of helper.
2. **A recorded task identity can be erased.** A submitter works on without its lease: it may write
   `submitted` late, over the record of a later attempt, and it journals `task_known` through the
   temporary file that a concurrent inspection uses as well (rollback helper lines 1909 to 1944).
   `SubmissionIdentity.IdentityIsKept`: over all continuations, a record on disk that names a task keeps
   naming it if and only if no helper owes a `submitted` write or is in a shared temporary file, and
   none can still write without its lease (over a terminal record, from which no new writer starts, one
   last write by the only writer left is harmless). Two different identities are never recorded
   (`OneTaskIdentity`). `IdentityCanBeLost` reaches both failures; the second one in a run where nothing
   crashed.
3. **Writers share one temporary file**, so a journal write is crash-atomic only while its writer is
   alone in it. `SharedTemporary.OpenIsHarmless`: whatever the writers do afterwards, the record reads as a
   previous or a whole new one, in every state and after every power loss, if and only if nobody is between
   its open and its rename when the file is opened. (Of a finished interleaving that cannot be said: two
   writers in the file at once may be lucky, `OverlapCanBeLucky`.) In the protocol, two processes meet in
   the file only if one of them writes without its lease (`SubmissionSafety.SharingNeedsOrphan`), and a launch
   is sure to find `submitted` itself on disk if and only if no such writer is there when the write of
   `submitted` begins (`LaunchFollowsDurableSubmission`). `SubmissionRuns.TornLaunchIsReachable` reaches a
   launch over a torn record.

Where comments and code differ, the model follows the code. The comment at
deploy/hubinet-package-mutation-helper.py line 1728 calls every seal answer durable, which is finding 1.
The comment at app/inventory/authority.py lines 4050 to 4056 says that only the invocation whose digest was
committed gets past the digest check; the check compares digests, not invocations, so the authority alone
lets any holder of an equal digest through (`MutationOrchestrator.AuthorityAloneAllowsTwo`). What bounds the
executions is the course every invocation keeps to, together with the one arming the authority allows
(`OneExecutionEver`).

## Model

| member | source | states |
|---|---|---|
| SubmissionInvariant.PathInv | deploy/hubinet-package-mutation-helper.py:1198-1262 | every state of every run keeps the lease-interval invariant: attempts never overlap, whatever crashes, kills, late requests and power losses happen |
| SubmissionSafety.AtMostOneLaunch | deploy/hubinet-package-mutation-helper.py:1940-2137 | over every run, at most one physical command per operation |
| SubmissionSafety.LaunchFollowsSubmission | deploy/hubinet-package-mutation-helper.py:2103-2131 | a launch is the first, carries the digest the arming transaction accepted, and follows the forced `submitted` write: on disk is `submitted`, or what sharers of the temporary file made of it |
| SubmissionSafety.LaunchFollowsDurableSubmission | deploy/hubinet-package-mutation-helper.py:2103-2131 | when READY arrives and the write of `submitted` begins: every launch of this runner finds `submitted` on disk if and only if no other helper is at a journal write without its lease descriptor |
| SubmissionSafety.SharingNeedsOrphan | deploy/hubinet-package-mutation-helper.py:1164-1196 | two processes have the temporary file open together only if one of them writes without its lease |
| SubmissionRuns.TornLaunchIsReachable | deploy/hubinet-package-mutation-helper.py:2350-2353 | from the initial state, for both kinds of helper: a run to a launch over a torn durable record |
| SubmissionRuns.SharersTearSubmission | deploy/hubinet-package-mutation-helper.py:1167-1190 | from any state with another writer beside an attempt, a launch over a torn record follows |
| SubmissionRuns.LaunchIsReachable | deploy/hubinet-package-mutation-helper.py:2365-2456 | the guarantees are not empty: an armed and sent operation of either kind can launch |
| SubmissionRuns.IdleLaunches | deploy/hubinet-package-mutation-helper.py:1968-2022 | a permissive record on an idle host, with the execute request still on its way, leads to a launch |
| SubmissionSafety.UnlaunchedRecords | deploy/hubinet-package-mutation-helper.py:1693-1725 | a visible absent, intent or sealed record proves that nothing was launched so far |
| SubmissionSafety.LaunchedNeverSealed | deploy/hubinet-package-mutation-helper.py:1773-1797 | once a command was launched, no helper ever answers a seal again |
| SubmissionSafety.ForcedSealFences | deploy/hubinet-package-mutation-helper.py:1742-1747 | a seal answered over a durable non-permissive record leaves no process, record or disk content that can lead to a launch |
| SubmissionSafety.FencedForEver | deploy/hubinet-package-mutation-helper.py:1985-1996 | that fence survives every continuation, however late a started helper takes the lease |
| SubmissionSafety.SealAnswerIsFinal | deploy/hubinet-package-mutation-helper.py:1750-1797 | with an execute request sent, no launch ever follows a seal answer if and only if the durable record forbade submission at the answer |
| SubmissionSafety.OwnSealIsFinal | deploy/hubinet-package-mutation-helper.py:1754-1772 | an answer given after the helper's own seal write is always final |
| SubmissionSafety.UnforcedSealCanLaunch | deploy/hubinet-package-rollback-helper.py:1759-1770 | from any reachable answer over a permissive durable record, a power loss and a late request reach a launch |
| SubmissionRuns.UnforcedSealIsReachable | deploy/hubinet-package-mutation-helper.py:1773-1797 | from the initial state, for both kinds of helper: a run to a seal answer over a durable record that still permits submission, and on to a launch |
| SubmissionSafety.ReleasedNeverLaunched | app/inventory/authority.py:4221-4324 | once any one seal was answered over a durable record that forbids submission, nothing was launched before it and nothing ever is after it, job released or not |
| SubmissionSafety.ReleaseFollowsSeal | app/package_update_mutation.py:682-737 | a released job always had a seal answered before |
| SubmissionIdentity.OneTaskIdentity | deploy/hubinet-package-rollback-helper.py:1608-1619 | any two identities in any records of any two moments of a run are equal, and are what the one launch reported |
| SubmissionIdentity.IdentityIsKept | deploy/hubinet-package-rollback-helper.py:1909-1944 | over all continuations, sharers of the temporary file included: a recorded identity stays if and only if nobody owes a `submitted` write, is in a shared file, or can still write without its lease (one last write over a terminal record excepted) |
| SubmissionIdentity.IdentityCanBeLost | deploy/hubinet-package-rollback-helper.py:1928-1944 | from the initial state: a run to a recorded identity with a late `submitted` write to come, and an undisturbed one whose submitter still writes without its lease |
| TaskIdentity.OneCandidate | deploy/hubinet-package-rollback-helper.py:1967-1981 | whatever the answer, at most one quote in it starts a JSON string that is an identity and ends the answer: the count of candidates is never above one |
| TaskIdentity.InnerString | deploy/hubinet-package-rollback-helper.py:1970-1974 | a JSON string read from a quote inside another one spells the end of that one, escapes and surrogate pairs included |
| TaskIdentity.Scan | deploy/hubinet-package-rollback-helper.py:1967-1979 | the loop over every quote finds exactly the candidate there is |
| TaskIdentity.ExtractUpid | deploy/hubinet-package-rollback-helper.py:1954-1985 | yields an identity exactly if the answer is UTF-8 and is that identity alone, or ends with it as a JSON string and mentions none before |
| TaskIdentity.AnswerNamesOne | deploy/hubinet-package-rollback-helper.py:1608-1619 | no answer names two identities |
| TaskIdentity.PrintedIsQuoted | deploy/hubinet-package-rollback-helper.py:1965-1985 | an identity in any JSON spelling after any progress text that mentions none is always read, quotes in that text included |
| TaskIdentity.EscapedSpells | deploy/hubinet-package-rollback-helper.py:1970-1974 | the ASCII form with every escape and surrogate pair is such a spelling of any string |
| Journal.JournalStore.WriteAll | deploy/hubinet-package-mutation-helper.py:950-980 | the short-write loop puts the whole payload in the file exactly when no call makes zero progress; interrupted calls are retried; what it wrote is always a prefix |
| Journal.JournalStore.WriteTemporary | deploy/hubinet-package-mutation-helper.py:1170-1189 | open, write, fsync succeed with the payload flushed, or fail; in every state on the way all other files read as before |
| Journal.JournalStore.RemoveTemporary | deploy/hubinet-package-mutation-helper.py:1174-1187 | a failed write leaves no temporary file, unless removing it fails too, and touches nothing else |
| Journal.JournalStore.Publish | deploy/hubinet-package-mutation-helper.py:1169-1190 | after the rename the whole flushed payload is in view; before it nothing changed for any reader |
| Journal.JournalStore.SyncDirectory | deploy/hubinet-package-mutation-helper.py:1191-1195 | what is in view becomes what every power loss leaves |
| Journal.JournalStore.Write | deploy/hubinet-package-mutation-helper.py:1164-1195 | in every state it can stop in, now and after power loss, the record reads as a previous one or the whole new one; on return only as the new one; it returns exactly when no call failed |
| Journal.SharedTemporaryTears | deploy/hubinet-package-mutation-helper.py:1167-1190 | one run in full: a second open of the shared temporary file between fsync and rename makes the first writer's record an empty file that no directory fsync makes safe |
| SharedTemporary.OrderlyWritersAreSafe | deploy/hubinet-package-mutation-helper.py:1164-1195 | any number of writers of one record, their system calls interleaved in any way in which nobody opens the temporary file while another is between its open and its rename: every state, and every power loss in it, reads a previous or a whole new record |
| SharedTemporary.OpenIsHarmless | deploy/hubinet-package-mutation-helper.py:1167-1190 | an open of the temporary file keeps that promise over every continuation if and only if nobody is between its own open and its rename at that moment |
| SharedTemporary.OverlapCanBeLucky | deploy/hubinet-package-mutation-helper.py:1167-1190 | that condition cannot be read off a finished interleaving: a second writer in the file may be published whole by the first one's rename |
| Journal.CaptureStore.WriteCompleted | deploy/hubinet-package-rollback-helper.py:822-863 | streams first, marker last: in every state it can stop in the marker is absent or whole; on return all three files are durable |
| Journal.CaptureStore.PublishStream | deploy/hubinet-package-rollback-helper.py:834-847 | a stream is published whole while the marker stays absent |
| Journal.MarkerDecides | deploy/hubinet-package-rollback-helper.py:865-910 | with the marker absent or whole, a reader gets nothing or exactly this capture, also if the stream files change between its reads |
| Journal.RecordedReads | deploy/hubinet-package-rollback-helper.py:882-910 | a durable capture reads back exactly, before and after power loss, if and only if its streams are within the size bound |
| Journal.CaptureStore.Cleanup | deploy/hubinet-package-rollback-helper.py:912-922 | removal never leaves a wrong capture and touches no other file; on return all three names are gone for good |
| Journal.CaptureStore.Remove | deploy/hubinet-package-rollback-helper.py:913-917 | one capture file is unlinked, or was missing, with the marker absent or whole throughout |
| Journal.CaptureStore.Promote | deploy/hubinet-package-rollback-helper.py:1608-1619 | the identity journaled is the one `ExtractUpid` reads from the capture, and there is none exactly if the command failed, timed out, overflowed or named none; wherever promotion stops, the disk holds the record naming it or the capture that yields it |
| Journal.HeldIdentityIsTold | deploy/hubinet-package-rollback-helper.py:1608-1619 | in each of those states, now and after any power loss, the host can tell the task: from its record or by reading the capture again |
| DurableDirectories.DirectoryTree.EnsureLevel | deploy/hubinet-package-mutation-helper.py:1032-1047 | a level is durable on return whether this call created it, found it, or raced another creator |
| DurableDirectories.DirectoryTree.Ensure | deploy/hubinet-package-mutation-helper.py:983-1047 | every level from the anchor down is durable on return despite racing creators; it refuses exactly the paths not below the anchor |
| DurableDirectories.DurableChainSurvives | deploy/hubinet-package-mutation-helper.py:986-1002 | a directory whose whole chain is durable is there after any power loss |
| DurableDirectories.OperationJournal.Write | deploy/hubinet-package-mutation-helper.py:1164-1195 | a written record is read back after any later power loss, directories included, so its absence proves that the write never returned |
| MutationOrchestrator.AllowedIsSound | app/inventory/authority.py:3964-4019 | with the authority's own guards alone, over any invocations: one arming at most, its digest fixed, every execute call with that digest, release inside the mutation only after a proved seal |
| MutationOrchestrator.AuthorityAloneAllowsTwo | app/inventory/authority.py:4021-4108 | those guards alone do not bound the calls of execute |
| MutationOrchestrator.OneExecutionEver | app/package_update_mutation.py:476-543 | over all invocations that keep to the course the entry points ensure, each stopped anywhere: the host is asked to execute at most once, by the one that got ARMED_NOW, with the accepted digest |
| MutationOrchestrator.EndedOnCourse | app/package_update_mutation.py:312-391 | an invocation that ends as the entry points do was on that course at every moment before |
| BackendRefinement.MovesRefine | app/package_update_mutation.py:312-605 | every allowed move of such invocations is a run of the submission protocol's backend steps, or none; what it asks of the host is sent |
| MutationOrchestrator.ReleaseNeedsSeal | app/package_update_mutation.py:682-737 | a job blocked inside the mutation had some invocation given a proved seal |
| MutationOrchestrator.Validated | app/package_update_mutation.py:785-801 | an answer about another operation, or none, is never a seal |
| MutationOrchestrator.Orchestrator.ArmTransaction | app/inventory/authority.py:3795-3962 | arms exactly from an active confirmed snapshot with equal material; blocks on mismatch and staleness; changes nothing otherwise |
| MutationOrchestrator.Orchestrator.SubmitTransaction | app/inventory/authority.py:4021-4108 | the host is called only inside the mutation with the accepted digest; each refusal calls nobody |
| MutationOrchestrator.Orchestrator.SealTransaction | app/inventory/authority.py:4221-4324 | one seal call at most, inside the armed state; blocks exactly when the seal was proved and the commit held |
| MutationOrchestrator.Orchestrator.CompleteTransaction | app/inventory/authority.py:4326-4412 | completes exactly on a proof, from the mutation or idempotently after it |
| MutationOrchestrator.Orchestrator.AskForSeal | app/package_update_mutation.py:696-727 | the seal is a fresh one of this call, and the job is blocked by it exactly if it was proved and committed |
| MutationOrchestrator.Orchestrator.Prepare | app/package_update_mutation.py:400-474 | succeeds exactly on an absent state with all evidence, a digest and a plan that parses |
| MutationOrchestrator.Orchestrator.RecordUncertain | app/package_update_mutation.py:816-851 | the conflict is never raised again: an armed job that left the mutation cannot re-enter it |
| MutationOrchestrator.Orchestrator.PollUntilTerminal | app/package_update_mutation.py:763-783 | only reads; ends with a state other than running, or past the deadline |
| MutationOrchestrator.Orchestrator.Resolve | app/package_update_mutation.py:549-605 | ends for all host answers; at most one seal and one completion, a seal only if the path had none yet; the status is explained by what the host said last, in both directions unless a seal intervened |
| MutationOrchestrator.Orchestrator.CompleteStage | app/package_update_mutation.py:607-634 | completed exactly if well-formed evidence proves the frozen rows of a job still in reach; uncertain otherwise |
| MutationOrchestrator.Orchestrator.ResolvePreMutationBlock | app/package_update_mutation.py:682-737 | reports NOT_SUBMITTED exactly when its own proved seal blocked the job; otherwise resolves with no further seal |
| MutationOrchestrator.Orchestrator.ArmAndSubmit | app/package_update_mutation.py:476-510 | goes on to submit only after its own ARMED_NOW; any other outcome never submits |
| MutationOrchestrator.Orchestrator.Submit | app/package_update_mutation.py:512-543 | one call of execute with the accepted digest, or none; a refusal before the call goes to the seal, everything else to recovery |
| MutationOrchestrator.Orchestrator.Recover | app/package_update_mutation.py:355-391 | never arms, never executes; not ready only if the job is not inside the mutation |
| MutationOrchestrator.Orchestrator.ExecuteJob | app/package_update_mutation.py:312-353 | this invocation's moves are at most one arm, one execute with that arm's digest, one seal, one completion, in that order; each status says what happened to the job and what the host said last |
| PollLoop.CarriedIsProven | app/package_update_rollback.py:601-636 | the proof carried read by read equals the history predicate: task known exactly when a task-known read, or the recorded identity, is followed only by consistent reads |
| PollLoop.BusyProvesNothing | app/package_update_rollback.py:638-655 | any number of busy reads without a recorded identity gives no proof and does not poll |
| PollLoop.Poller.PollUntilResolved | app/package_update_snapshot.py:750-825 | looks again exactly while the history proves the operation in flight and the budget lasts; returns a read that is not pending, or past the deadline; the number of looks is bounded by the budget |
| RollbackOrchestrator.ReleaseExcludesTask | app/inventory/authority.py:5532-5630 | in every interleaving of invocations: a job that records a task at any moment is released at none, earlier or later |
| RollbackOrchestrator.RecordedOnce | app/inventory/authority.py:5391-5438 | a recorded task identity is never replaced and a finished job never changes |
| RollbackOrchestrator.Orchestrator.ArmTransaction | app/inventory/authority.py:5145-5254 | arms or finds armed, else leaves the job as it was |
| RollbackOrchestrator.Orchestrator.SubmitTransaction | app/inventory/authority.py:5330-5389 | calls the host at most once, only inside the armed state, and only after a read that permits it |
| RollbackOrchestrator.Orchestrator.CompleteTransaction | app/inventory/authority.py:5636-5747 | finishes only an armed job with a recorded task, or finds it finished |
| RollbackOrchestrator.Orchestrator.SealTransaction | app/inventory/authority.py:5532-5630 | blocks exactly on a proved, committed seal while no task is recorded |
| RollbackOrchestrator.Orchestrator.RecordTask | app/inventory/authority.py:5391-5438 | conflicts exactly on a different identity or a job that moved on |
| RollbackOrchestrator.Orchestrator.Finish | app/package_update_rollback.py:385-411 | a known identity is durable before the first poll; ends for all host answers |
| RollbackOrchestrator.Orchestrator.ApplyHostResult | app/package_update_rollback.py:657-748 | completed only on a completed read with a succeeded task and a listing, failed only on a failed one; a failed read is uncertain only if its task conflicts with the job's; at most one seal |
| RollbackOrchestrator.Orchestrator.ResolvePreRollbackBlock | app/package_update_rollback.py:439-499 | one seal at most; NOT_SUBMITTED only with the job blocked by it |
| RollbackOrchestrator.Orchestrator.RollBack | app/package_update_rollback.py:297-383 | at most one submission, only on a read that permits it, and at most one seal; NOT_SUBMITTED and COMPLETED are justified by the durable job |
| ActionGate.BuildExpectedActionManifest | deploy/hubinet-package-mutation-helper.py:329-404 | renders the manifest exactly when every row is expressible and an upgrade |
| ActionGate.RenderIsInjective | deploy/hubinet-package-mutation-helper.py:379-404 | two records with blank-free fields render to the same line only if they are equal |
| ActionGate.NormaliseStream | deploy/hubinet-package-mutation-helper.py:502-523 | refuses exactly on an inadmissible line, else writes the canonical records |
| ActionGate.Lockstep | deploy/hubinet-package-mutation-helper.py:535-551 | the side-by-side reading accepts exactly equal files |
| ActionGate.Verify | deploy/hubinet-package-mutation-helper.py:456-551 | the whole script decides `Accepts`, on any manifest and any stream |
| ActionGate.GateIsExact | deploy/hubinet-package-mutation-helper.py:502-551 | with the manifest of any approved rows: accepts if and only if every action line is admissible and the actions are, as a multiset, one unpack and one configure of every row |
| ActionGate.PrintedStreamIsDecided | deploy/hubinet-package-mutation-helper.py:456-551 | end to end: protocol line, any configuration space, action lines: accepted if and only if the lines are admissible and are, as a multiset, the approved actions |
| ActionGate.AcceptedIsApproved | deploy/hubinet-package-mutation-helper.py:407-448 | with distinct rows, every accepted action is an approved row's and each row has exactly its two |
| Ordering.SortedEquality | deploy/hubinet-package-mutation-helper.py:525-533 | sort and compare decides multiset equality |
| AptPlan.ResolveInstalledArchitecture | app/package_scan.py:325-356 | exactly one installed architecture can be meant, or none is returned |
| AptPlan.ScanLines | app/package_scan.py:393-474 | the line loop accepts exactly the lines of `ScanOk` and collects their changes, configure actions and summary in order |
| AptPlan.TakeLine | app/package_scan.py:393-474 | one line is taken exactly if it is acceptable by itself and repeats no name and no summary |
| AptPlan.ResolveChanges | app/package_scan.py:492-535 | every change resolves to its own installed row, or the plan is refused |
| AptPlan.CheckConfigures | app/package_scan.py:537-547 | accepts exactly if every configure action is bound to a change |
| AptPlan.ParseAptSimulation | app/package_scan.py:359-551 | the three loops return exactly the declared plan, or refuse exactly when the lines are not acceptable |
| AptPlan.AcceptedPlanIsSound | app/package_scan.py:365-383 | an accepted plan is sorted, duplicate-free, dpkg's own versions and architectures, nothing removed, every configure action bound to exactly one row, and of APT's own count |
| AptPlan.PlanIgnoresOrder | app/package_scan.py:393-551 | rearranging the lines changes neither verdict nor plan |
| AptPlan.RoundTrip | app/package_scan.py:359-551 | printing any plan dpkg supports, in any line order and among other lines, parses back to exactly that plan, sorted |
| DpkgReaders.ParseDpkgInventory | deploy/hubinet-package-mutation-helper.py:1464-1505 | the helper's loop returns exactly the installed map and unfinished names of the rows it accepts |
| DpkgReaders.ParseInstalledInventoryState | app/package_scan.py:219-283 | the canonical loop returns exactly the installed map and sorted unfinished rows of the rows it accepts |
| DpkgReaders.TakeRow | app/package_scan.py:245-279 | one row is taken exactly if its status is known and, unless not installed, it is bounded, well-formed and new |
| DpkgReaders.ReadersAgree | app/package_scan.py:219-283 | whenever both accept a text, installed maps and unfinished packages are the same |
| DpkgReaders.InstalledMeans | deploy/hubinet-package-mutation-helper.py:1495-1505 | the map holds exactly the installed rows, each at its own version |
| DpkgReaders.HelperTakesCanonical | deploy/hubinet-package-mutation-helper.py:1479-1500 | a text the canonical reader accepts is accepted by the helper if and only if its not-installed rows are well-formed and repeat no identity |
| DpkgReaders.CanonicalTakesHelper | app/package_scan.py:233-278 | a text the helper accepts is accepted by the canonical reader if and only if it keeps the size bounds, known status words and non-empty installed versions |
| JsonText.StringReadsBack | deploy/hubinet-package-mutation-helper.py:708-711 | any string, escaped and closed, is read back by an RFC 8259 decoder, with what follows untouched |
| JsonText.EscapedIsAscii | deploy/hubinet-package-mutation-helper.py:708-711 | the escaped text is printable ASCII |
| PlanFingerprint.TextIsThePlan | deploy/hubinet-package-mutation-helper.py:714-736 | plans with distinct identities have the same digested text if and only if they approve the same rows, in whatever order |
| SystemdBatch.Classify | deploy/hubinet-package-health-helper.py:1037-1051 | passed only for active; failed only for a state at rest without a job; unknown otherwise |
| SystemdBatch.ReadBlock | deploy/hubinet-package-health-helper.py:1017-1033 | a block counts only with exactly the four properties, each once |
| SystemdBatch.ReadAnswers | deploy/hubinet-package-health-helper.py:1006-1034 | the two loops compute the answer by position |
| SystemdBatch.PositionDecides | deploy/hubinet-package-health-helper.py:953-959 | with distinct targets each gets its own block's classification, whatever `Id` it reports |
| SystemdBatch.MiscountIsUnknown | deploy/hubinet-package-health-helper.py:1007-1014 | a wrong number of blocks makes every target unknown |
| SystemdBatch.BatchReadsBack | deploy/hubinet-package-health-helper.py:940-1034 | reports printed in request order, in any property order, come back to their own targets |
| HealthSettling.NextCommandTimeout | deploy/hubinet-package-health-helper.py:240-271 | a granted timeout is the largest of at most a minute that ends two seconds before the deadline; none exactly when too little is left |
| HealthSettling.Clamp | deploy/hubinet-package-health-helper.py:427-428 | always within its bounds, and the value itself if that is |
| HealthSettling.Helper.GuestCommand | deploy/hubinet-package-health-helper.py:798-844 | revalidation and command each get a timeout of their own inside the one deadline |
| HealthSettling.BaselineOf | deploy/hubinet-package-health-helper.py:1091-1111 | passed exactly if the one command ran to exit code 0; never failed |
| HealthSettling.Helper.SystemdRound | deploy/hubinet-package-health-helper.py:940-1034 | one guest command whatever the number of targets; the answers are exactly what that command said of exactly the targets |
| HealthSettling.Helper.Observe | deploy/hubinet-package-health-helper.py:1114-1147 | every probe is given the answer of its own target, in one timed round |
| HealthSettling.Helper.SettleLive | deploy/hubinet-package-health-helper.py:1257-1311 | ends by the deadline after at most 40 rounds and as many commands; its results are the last round's; decisive exactly if that round is; otherwise the window or the rounds are used up |
| HealthSettling.Helper.Pause | deploy/hubinet-package-health-helper.py:1300-1303 | sleeps the interval or what is left of the window; stops exactly at its end |
| HealthSettling.Helper.Partition | deploy/hubinet-package-health-helper.py:1205-1220 | splits off exactly the structurally broken probes |
| HealthSettling.Helper.Settle | deploy/hubinet-package-health-helper.py:1205-1311 | the same with structurally broken targets: at most one round, never decisive |
| HealthSettling.Helper.GuestOperationalOnce | deploy/hubinet-package-health-helper.py:1062-1111 | one attempt that can pass or be unknown, never fail |
| HealthSettling.Helper.HandleRequest | deploy/hubinet-package-health-helper.py:1314-1432 | prologue, rounds and sleeps end by the one clamped deadline, every command the margin before it, and the answer is honest about its one round |
| HealthVerdict.Aggregate | app/inventory/models.py:395-422 | failed exactly if some probe failed, passed exactly if all passed |
| HealthVerdict.ValidateHostHealthResult | app/package_update_health.py:524-628 | believes an answer exactly if it is about this contract, complete, coherent and not decisive with an unknown |
| HealthVerdict.Observations | app/package_update_health.py:585-628 | the second loop: every frozen probe gets its one coherent observation, or the answer is rejected |
| HealthVerdict.Orchestrator.EvaluateJobHealth | app/package_update_health.py:319-480 | with other invocations and stages moving the job between its transactions: at most one verdict committed, the all-of of a decisive believed answer, over an active job that had none; every other result commits nothing |
| HealthVerdict.Orchestrator.Complete | app/inventory/authority.py:4595-4752 | commits exactly on an active job inside an evaluation whose context holds; a passed verdict ends the job, a failed one does not |
| HealthVerdict.HonestIsBelieved | app/package_update_health.py:524-628 | an honest helper's answer about the job's contract is never rejected |
| HealthVerdict.VerdictIsOneRound | app/package_update_health.py:400-470 | a verdict on an honest answer is the all-of of one single round, at least the second, at most 15 s long, with every frozen unit resolved; the baseline never fails |
| HealthVerdict.PassedIsActive | deploy/hubinet-package-health-helper.py:940-1034 | in a round whose command printed one report per unit, a unit passed exactly if its own report says active |
| ExceptionWalk.Walk | app/inventory_pve_transport.py:99-152 | distinct reachable nodes at non-decreasing exact distances, twenty or all there are, with at most 41 pops, for any graph |
| ExceptionWalk.WalksEnough | app/inventory_pve_transport.py:119-135 | at most twenty reachable nodes are all walked; of more, exactly twenty |
| ExceptionWalk.FindCertificateError | app/inventory_pve_transport.py:155-170 | finds a certificate error exactly if a walked node is one, and the nearest of them |
| UpdateWorker.Worker.Drive | app/package_update_worker.py:363-407 | attempted checkpoints strictly rise, only the last attempt did not advance, and the cycle's result is that attempt's |
| UpdateWorker.Worker.Step | app/package_update_worker.py:409-575 | the stage's own report decides: on from completed, completed and passed, terminal on a completed rollback, stopped on every other; a failed health verdict and an unknown checkpoint start no stage |
| UpdateWorker.Worker.RunOnce | app/package_update_worker.py:329-361 | one cycle at a time: a second caller attempts nothing |
| UpdateWorker.DestructiveOnce | app/package_update_worker.py:409-442 | per cycle the mutation is entered at most once, at a confirmed snapshot, and anything after it finds it completed; the rollback at most once, last, only at its own armed checkpoint |
| ScanScheduler.Scheduler.CatchUp | app/package_scan_scheduler.py:168-173 | adds whole intervals until the deadline is the first above the clock |
| ScanScheduler.Scheduler.RunLoop | app/package_scan_scheduler.py:126-173 | every pass keeps the cadence discipline, whatever other threads configure and wake |
| ScanScheduler.CadenceIsAbsolute | app/package_scan_scheduler.py:149-173 | between reconfigurations every deadline is anchor + n * interval, never goes back, and after a due cycle is the least above the clock |
| ScanScheduler.WakesMoveNothing | app/package_scan_scheduler.py:90-101 | any number of post-update wakes in a row leave the deadline where it was |
| ScanScheduler.Scan | app/package_scan_scheduler.py:185-280 | every durable request first, then, in a full cycle only, the other eligible resources: one outcome for each, whatever conflicts or failures came before |
| ScanScheduler.LanesAreDisjoint | app/package_scan_scheduler.py:224-234 | the periodic lane scans no resource a request names |

## Left out

- ReleasedNeverLaunched: needs one seal that was on disk, or on its way over a record that forbids submission, when it was answered; without that the promise is false (finding 1), and SealAnswerIsFinal is the exact condition for one answer.
- LaunchFollowsSubmission: allows a torn durable record, because the code does (finding 3); LaunchFollowsDurableSubmission is the exact condition.
- HandleRequest: counts time in commands, at most what they were granted, and in sleeps; the time the helper itself computes, and a runner that overstays its timeout, are not counted.
- ParseAptSimulation: reads lines as tokens; the regular expressions that make tokens of text, the 8 MiB bound and the single-line check of the native architecture are not modelled.
- The snapshot orchestrator: its submit, seal and poll structure is the rollback orchestrator's; only the shared poll loop is proved. The snapshot host helper is not part of this model.
- The protocol treats a task identity as a number; what an answer names is `TaskIdentity`. The regular expression of an identity is modelled as its colon-separated parts.
- The JSON shape checks of journal records and requests, request fingerprints and canonical UUIDs: field-by-field checks; the protocol reads records as one of seven values.
- SHA-256: injective where a capture is read back; the plan's digest is stated on the text before hashing.
- SSH argument lists, subprocess pumps, selectors and file descriptors beyond the lease and the READY and GO bytes.
- Authority SQL, its event log and revisions: each transaction is one atomic step with the guards and updates of the cited code.
- FastAPI routes, configuration, Home Assistant, firewall documents, bootstrap scripts, log messages and truncated reason texts: wiring.
- The behaviour of PVE, APT, dpkg and systemd: nondeterministic answers.
- Concurrent captures: the rollback runner is the only writer of its capture, which at most one launch justifies.
