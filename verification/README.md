# A verified model of the Hetzner Cloud operator

The operator reconciles Kubernetes objects against Hetzner Cloud: each pass reads the cloud,
issues the calls that are due, and rewrites the object's status. Its promise is that
interruptions are safe and never create duplicate infrastructure (README.md:54 of the
repository). That is a statement about every run with a fault at every point, and this project
proves it, together with convergence, ownership and exactness properties of each resource kind,
about a model that follows the Go code branch by branch.

`dafny verify dfyconfig.toml` checks everything.

## How it is built

The specification of a pass is a function of the cloud, the stored status and a script of what
the world does around each call. Classes perform the same passes in place, on maps, sequences
and status fields as the Go code does, and every such method is proved equal to its function or
against a direct statement of the new state. Theorems about runs are lemmas over sequences of
events.

- **Faults.** Every API call meets a fate: it works, it is refused, or it takes effect and the
  answer is lost. A crash of the operator at a call is a failed call whose pass stores no status;
  whether the final status lands is a separate choice of every event.
- **Interference.** Other parties may act before any call: delete a resource, attach or detach a
  volume, let a server drift from a transitional power state, write to the object, mark it for
  deletion, or create a resource of the same name.
- **Order.** Go iterates maps in any order, so loops over maps choose an arbitrary element.

| file | contents |
|---|---|
| `prelude.dfy`, `texts.dfy` | fates, faults, sorting, joining and decimal numbers |
| `lifecycle.dfy`, `lifecycle_runs.dfy`, `base_reconciler.dfy` | finalizers, lookup or create, deletion; runs; the loop in place |
| `status_write.dfy`, `conditions.dfy` | optimistic-concurrency status writes; Synced and Ready |
| `server_cloud.dfy`, `server.dfy`, `server_lookup.dfy` | the server side of the cloud; the server reconciler; lookup, adoption and creation |
| `server_runs.dfy`, `server_convergence.dfy`, `server_ownership.dfy`, `server_ready.dfy` | shapes of a pass, convergence, power cycle, networks, what each stage records |
| `addresses.dfy`, `volume.dfy` | floating and primary IPs; volumes |
| `services.dfy`, `loadbalancer.dfy`, `loadbalancer_pass.dfy` | service diff, certificates, targets, the pass |
| `firewall_rules.dfy`, `firewall.dfy`, `firewall_pass.dfy` | rule comparison, attachments, the pass |
| `network.dfy` | the subnet loop |

## What turned out to be conditional

The code is modelled as it is; where an expected property fails, the exact condition is proved.

- A running server whose type is wrong is powered on again after the change exactly if
  `AppliedServerType` differed from the spec when the change began; after a spec revert it stays
  off. References of the spec that cannot be resolved make no difference to this
  (`RestartsIff`).
- A type change converges exactly if the placement group and the network the spec refers to can
  be had, the cloud reports a type for the server, and the server is neither being deleted nor in
  an unknown state; a server in another placement group is never moved (`FairRunsConvergeIff`).
- A floating or primary IP, and a volume whose status records an attachment, can never finish
  deletion once the resource is gone but the finalizer is not (`CrashAfterDeleteIff`,
  `StrandedForever`).
- A pass leaves a resource of the object's name unrecorded exactly if it creates one and does
  not record it (`RecordedIff`), and create, delete, cleanup then leaves it behind
  (`OrphanedIff`). A later pass that finds it by name records it exactly if its status lands and
  it succeeded or belongs to a kind that records at once (`AdoptionRecordedIff`); one pass in
  which nothing fails always does (`OnePassRecovers`).
- The reason ResizePending is never what a pass over a server stores: a running server of the
  wrong type is powered off before the status sync is reached (`SyncRecords`). A server in the
  wrong placement group keeps the power state recorded before (`BlockedRecords`).
- What the operator attached is the recorded network at every point of a run exactly if every
  pass that was due to attach a new network got its answer, its refresh and a status write
  (`OwnedIsRecorded`, `AccountedIff`, `AttachesNewIff`). A network attached without that stays attached forever if
  the spec then drops it (`FaultAfterAttachLosesRecord`, `UnrecordedNetworkLeaks`).
- A pass reads a missing server exactly if it makes a power-off, type or power-on call that
  works, and others delete the server before the refresh that follows (`PanicsIff`).
- A pass leaves Synced=False without Ready=False stored exactly if the stored status says that
  the pass before failed, the base's write does not land, and the controller's own does, with
  true as the last thing set to Ready before it (`IncoherentIff`). The server controller can do
  that; the network controller, which writes right after setting Ready to false, cannot
  (`EarlyWriteIsCoherent`).
- A labels-only update blanks a floating IP's description, and an unrecorded assignment with no
  target is first recorded; only then is a second pass needed (`SecondPassNeededIff`).
- `applyTo` left out removes every attachment (`DesiredAre`), although the comment at
  api/v1alpha1/hcloudfirewall_types.go:59 reads as if attachments were left alone.
- A service update takes, for every service and request, exactly if the request sets every
  optional field the cloud holds and sets none to a zero value: a pointer to `false`, zero or the
  empty text never reads back equal (`UpdateTakesIff`). One that does not take is sent again on
  every later pass and never does (`SyncsReachIff`).

## Model

| member | source | states |
|---|---|---|
| `LifecycleRuns.NoDuplicates` | internal/controller/hcloudserver_controller.go:101-164 | over every run of passes, faults, crashes and meddling, at most one cloud resource has the object's name, and a live recorded ID names it; also when the cloud itself would accept duplicates |
| `LifecycleRuns.StepKeepsValid` | internal/reconcile/base.go:92-148 | every event keeps unique names, IDs below the next one, no recorded ID without the finalizer, no deletion mark without it |
| `LifecycleRuns.AlreadyExistsIff` | internal/hcloud/fake_client.go:102-117 | "already exists" comes back exactly when somebody else created the name between lookup and create |
| `LifecycleRuns.IntrusionDuplicates` | internal/controller/hcloudserver_controller.go:117-133 | on a cloud that accepts duplicates that intrusion is the one case that makes two |
| `LifecycleRuns.CreatedBehindFinalizer` | internal/reconcile/base.go:119-129 | in every run no create happens while the stored object lacks the finalizer |
| `LifecycleRuns.VanishingCleansUp` | internal/reconcile/base.go:106-118 | an object vanishes only after its recorded resource was deleted, nothing else was touched, and a same-named resource survives exactly if the recorded ID was not in the cloud |
| `LifecycleRuns.DeletePassFinishesIff` | internal/controller/hcloudvolume_controller.go:130-161 | a delete pass in which nothing fails finishes exactly if nothing is recorded, the kind deletes directly, the resource is there, or a volume records no attachment |
| `LifecycleRuns.StrandedForever` | internal/controller/hcloudfloatingip_controller.go:110-118 | otherwise no run ever finishes the deletion |
| `LifecycleRuns.CrashAfterDeleteIff` | internal/reconcile/base.go:106-118 | after a crash between external delete and finalizer removal, retrying works exactly for direct kinds and for volumes without a recorded attachment |
| `LifecycleRuns.RecordedIff` | internal/controller/hcloudserver_controller.go:117-164 | a pass keeps every resource of the object's name recorded exactly if it creates none or records the one it creates |
| `LifecycleRuns.FaithfulRunsLeaveNothing` | internal/controller/hcloudserver_controller.go:117-164 | a run whose creating passes record what they create leaves nothing behind when the object goes; passes that create nothing may fail anywhere and lose any status |
| `LifecycleRuns.OrphanedIff` | internal/controller/hcloudserver_controller.go:117-149 | create, remove, delete leaves the resource behind exactly if the creation was not recorded |
| `LifecycleRuns.AdoptionRecordedIff` | internal/controller/hcloudserver_controller.go:115-129 | a pass that finds the resource by name records it exactly if its status lands and it succeeded or the kind records at once; it succeeds exactly if the work on the resource does, and touches no other resource |
| `LifecycleRuns.RecordedAfterIff` | internal/controller/hcloudserver_controller.go:101-164 | from every state, exactly when a pass leaves every resource of the name recorded: created and recorded, adopted and recorded, or neither and recorded before |
| `LifecycleRuns.OnePassRecovers` | internal/controller/hcloudserver_controller.go:115-164 | crash recovery: after any run, one pass in which nothing fails ends with exactly one resource of the name, recorded |
| `LifecycleRuns.LiveIDNeedsNoName` | internal/controller/hcloudserver_controller.go:104-113 | a recorded ID that is live is used; nothing is looked up by name or created |
| `LifecycleRuns.TrailTells` | internal/controller/hcloudserver_controller.go:101-164 | the trail of creates and deletes is complete: resources come and go in a pass exactly by the calls it records |
| `LifecycleRuns.FinalizerStoredIff` | internal/reconcile/base.go:119-129 | a pass over an object without the finalizer stores it exactly if the write goes through and nobody wrote in between, and touches nothing in the cloud |
| `LifecycleRuns.StaleWritesRefused` | internal/reconcile/base.go:111-114 | a write goes through exactly on the version it was read at, and makes every earlier read stale, as does every status write and every write of others |
| `LifecycleRuns.ConflictKeepsOthers` | internal/reconcile/base.go:106-129 | what others write during a finalizer or delete pass is never overwritten, and such a pass fails |
| `LifecycleRuns.ReconcileKeepsMarks` | internal/reconcile/base.go:131-148 | a reconcile changes the stored status at most: finalizer and deletion mark are as the others leave them |
| `LifecycleRuns.FailedCleanupIs` | internal/controller/hcloudvolume_controller.go:130-161 | a cleanup that meets a failed call fails, and deletes only by the call that is lost |
| `LifecycleRuns.DeletePassDoneIff` | internal/reconcile/base.go:106-118 | a delete pass reports success exactly if the cleanup did, the finalizer came off and nobody wrote in between; the object is then gone |
| `LifecycleRuns.UnreadyTouchesNothing` | internal/controller/hcloudvolume_controller.go:94-128 | a reference that is not ready, or cannot be read, ends the pass before any cloud call; only the second is an error |
| `Lifecycle.NamedUnique` | internal/hcloud/fake_client.go:87-100 | with unique names the lookup finds the one resource in any iteration order |
| `BaseLoop.BaseReconciler.Reconcile` | internal/reconcile/base.go:92-148 | the loop in place is the pass of every lifecycle theorem and keeps the world valid |
| `BaseLoop.BaseReconciler.EnsureResource` | internal/controller/hcloudserver_controller.go:105-149 | by recorded ID, else by name, else create, in place |
| `BaseLoop.BaseReconciler.Delete` | internal/controller/hcloudvolume_controller.go:130-161 | external cleanup of each kind, in place: direct, unassign first, detach first |
| `BaseLoop.BaseReconciler.ReconcileResource` | internal/reconcile/base.go:131-148 | the domain part of a pass and its status write, in place; what it records is `AdoptionRecordedIff` and `RecordedAfterIff` |
| `StatusWrite.LandsIff` | internal/reconcile/base.go:172-185 | a status write lands exactly if one of the allowed attempts meets no other write and every call up to it is answered, and then stores this status |
| `StatusWrite.LandedKeepsTheRest` | internal/reconcile/base.go:172-185 | spec and finalizers end up as the other writers alone would have left them |
| `StatusWrite.AttemptsBounded` | internal/reconcile/base.go:172-185 | no more attempts than allowed, and a conflict is reported only once all are used up |
| `StatusWrite.LastWriteWins` | internal/reconcile/base.go:172-185 | of several writers of one part of the object the last counts, and what nobody writes stays |
| `StatusWrite.OwnLandsIff` | internal/controller/hcloudserver_controller.go:500-512 | the server controller's write lands exactly if some allowed attempt meets no other write between its read and its update and every call up to that is answered; a conflict is tried again |
| `StatusWrite.OwnLandedKeepsTheRest` | internal/controller/hcloudserver_controller.go:500-512 | spec and finalizers end up as the other writers alone would have left them, under the new status |
| `StatusWrite.OwnAttemptsBounded` | internal/controller/hcloudserver_controller.go:500-512 | the same bound for these attempts |
| `StatusWrite.OwnWriteThenBase` | internal/controller/hcloudserver_controller.go:500-512 | after the server controller's own write, with no other writer and every call answered, the base's lands at the second attempt, and not with a bound of one |
| `StatusWrite.ApiServer.UpdateStatusWithRetry` | internal/reconcile/base.go:172-185 | the retry loop in place takes exactly the attempts of the specification |
| `StatusWrite.ApiServer.UpdateServerStatusWithRetry` | internal/controller/hcloudserver_controller.go:500-512 | the controller's read-modify-write loop in place, the one of `OwnLandsIff` |
| `Conditions.UpsertLooksUp` | internal/reconcile/base.go:151-160 | setting a condition changes what is read for its kind and for no other |
| `Conditions.UpsertKeepsUnique` | internal/reconcile/base.go:151-160 | condition kinds stay unique |
| `Conditions.IncoherentIff` | internal/reconcile/base.go:131-148 | a pass leaves Synced=False without Ready=False stored exactly if the stored Synced is false, the base's write does not land, and the controller's own lands with true as the last thing set to Ready before it |
| `Conditions.EarlyWriteIsCoherent` | internal/controller/hcloudnetwork_controller.go:97-103 | a write in mid-pass after a false Ready never leaves such a status, whatever is set later |
| `Conditions.UpsertAllLooksUp` | internal/reconcile/base.go:151-160 | after any list of updates a kind reads as the last one for it, or as before |
| `Conditions.StepReads` | internal/reconcile/base.go:131-148 | what each kind reads as after a pass, given which writes landed |
| `Conditions.MidPassReads` | internal/controller/hcloudnetwork_controller.go:97-103 | a write in mid-pass stores the conditions set before it and none set later; without any write nothing changes |
| `Conditions.VerdictFacts` | internal/reconcile/base.go:131-148 | the verdict sets Synced with its reason, Ready only after an error, and no other kind |
| `Conditions.RunsAreCoherent` | internal/reconcile/base.go:131-148 | over every run whose own writes are followed by landed base writes the stored status is coherent |
| `Conditions.LandedWriteRestores` | internal/reconcile/base.go:131-148 | one landed base write makes the status coherent, whatever came before |
| `Conditions.ConditionList.SetCondition` | internal/reconcile/base.go:151-160 | the library's upsert in place |
| `Conditions.ConditionList.Conclude` | internal/reconcile/base.go:131-148 | the base's verdict in place: an error sets Synced and Ready false, success sets Synced true |
| `ServerCloud.FakeServers.PowerOffServer` | internal/hcloud/fake_client.go:146-160 | in place on the map of servers: one server's slice changes as specified, the others not at all |
| `ServerCloud.FakeServers.PowerOnServer` | internal/hcloud/fake_client.go:162-176 | the same for power on |
| `ServerCloud.FakeServers.ChangeServerType` | internal/hcloud/fake_client.go:178-198 | a change to another type is refused unless the server is off; otherwise only the type changes |
| `ServerCloud.FakeServers.AttachServerToNetwork` | internal/hcloud/fake_client.go:200-219 | attach a known network once, kept sorted |
| `ServerCloud.FakeServers.DetachServerFromNetwork` | internal/hcloud/fake_client.go:221-237 | the in-place filter removes exactly this network |
| `ServerCloud.CloudRefusesIff` | internal/hcloud/fake_client.go:178-219 | a type change is refused exactly for another type of a server that is not off; an attach exactly for an unknown network |
| `ServerCloud.NetworksStaySorted` | internal/hcloud/fake_client.go:200-237 | attaching and detaching keep the networks sorted and without repeats |
| `ServerCloud.SlowCallsTransit` | internal/hcloud/fake_client.go:146-176 | a server that is off or running, or on its way there, is left alone by the call; a slow call leaves it on its way to where the quick one puts it |
| `ServerLookup.HCloudServerReconciler.ReconcileHCloudServer` | internal/controller/hcloudserver_controller.go:101-164 | fetch by recorded ID, adopt by name, or create, in place: names stay unique, a live recorded ID names the object's own server, "already exists" cannot come back, a server is made only if none has the name, and a pass over a found one is the specified one |
| `ServerLookup.HCloudServerReconciler.AdoptOrProvision` | internal/controller/hcloudserver_controller.go:117-164 | adoption records the ID found before the pass; otherwise one server of the object's name is made |
| `ServerLookup.HCloudServerReconciler.Provision` | internal/controller/hcloudserver_controller.go:131-164 | the new server has the spec's type and group; the status records its ID and power, its type only if it runs with the wanted one, its group only if it has one, and Ready; an error leaves the status alone |
| `ServerLookup.ExistingKeeps` | internal/controller/hcloudserver_controller.go:166-206 | no pass over an existing server renames it, records another ID, or hears "already exists" |
| `ServerCloud.FakeServers.GetServerByName` | internal/hcloud/fake_client.go:87-100 | finds a server of the name in any map order, or there is none |
| `ServerCloud.FakeServers.CreateServer` | internal/hcloud/fake_client.go:102-132 | a taken name is refused; otherwise exactly one server is added, under a fresh ID |
| `ServerController.ServerReconciler.ReconcileExistingServer` | internal/controller/hcloudserver_controller.go:166-206 | the pass over an existing server in place is the specified one and touches no other server |
| `ServerController.ServerReconciler.ReconcileServerTypeMismatch` | internal/controller/hcloudserver_controller.go:321-370 | power off, change, or wait, by power state, with what `ResizeRecords` says is recorded |
| `ServerController.ServerReconciler.EnsureServerNetworkAttachment` | internal/controller/hcloudserver_controller.go:208-319 | network migration in place: detach the recorded one, attach the target, record |
| `ServerController.ServerReconciler.SyncServerStatus` | internal/controller/hcloudserver_controller.go:384-403 | the status sync in place, with the branch that keeps a network reason |
| `ServerRuns.DropFacts` | internal/controller/hcloudserver_controller.go:213-263 | detaching the recorded network logs at most that call, forgets it only on success, and leaves every other network |
| `ServerRuns.JoinFacts` | internal/controller/hcloudserver_controller.go:265-319 | attaching the target logs at most that call and records it exactly when the server has it |
| `ServerRuns.MismatchFacts` | internal/controller/hcloudserver_controller.go:321-370 | a pass over a wrong type makes at most the one call that is due in that power state, and makes it when nothing fails |
| `ServerRuns.PassFacts` | internal/controller/hcloudserver_controller.go:166-206 | every pass waits, makes one due power or type call, or makes network calls only; it never asks to change the type of a server that is not off |
| `ServerConvergence.StepNeverRegresses` | internal/controller/hcloudserver_controller.go:166-206 | no event, whatever fails in it, raises the measure of a resize |
| `ServerConvergence.CleanPassProgresses` | internal/controller/hcloudserver_controller.go:166-206 | a pass without faults lowers it from every state the cloud will not leave by itself |
| `ServerConvergence.FairRunsConvergeIff` | internal/controller/hcloudserver_controller.go:166-206 | as many rounds as the measure says, with any faults between, end with type, power, record and network as wanted if and only if the references can be satisfied and the server is one that can change |
| `ServerConvergence.ConvergedIsSilent` | internal/controller/hcloudserver_controller.go:166-206 | once converged no pass changes the cloud or makes a mutating call |
| `ServerConvergence.HopelessStays` | internal/controller/hcloudserver_controller.go:466-498 | a server in another placement group, without its network, without a reported type, being deleted or in an unknown state never gets its type recorded |
| `ServerConvergence.RestartsIff` | internal/controller/hcloudserver_controller.go:171-188 | a running server of the wrong type ends up running again exactly if the recorded type was not the wanted one, and off otherwise, whatever becomes of the references |
| `ServerConvergence.RunFollowsCycle` | internal/controller/hcloudserver_controller.go:321-370 | over every run, with references resolved or not, the power and type calls are the slice of off, change, on between the phases before and after |
| `ServerConvergence.ConvergedRunMadeOneCycle` | internal/controller/hcloudserver_controller.go:321-370 | a run from a running server of the wrong type to a running one of the wanted type made exactly one of each, in that order |
| `ServerConvergence.RecordedTypeIsObserved` | internal/controller/hcloudserver_controller.go:384-388 | the recorded type changes only to the wanted one and only for a running server of that type; "must be off" is never provoked |
| `ServerReady.ResizeRecords` | internal/controller/hcloudserver_controller.go:321-382 | after a resize step that waited or made a call, and after a power-on, the status shows the server as last seen, not ready, with the reason of that step, and is otherwise as before |
| `ServerReady.NetworkRecords` | internal/controller/hcloudserver_controller.go:208-319 | a pass that changed the network records the target and is ready for being attached, migrated or detached, whichever it was |
| `ServerReady.BlockedRecords` | internal/controller/hcloudserver_controller.go:466-498 | a server outside its placement group: the group it is in is recorded and Ready is false for that reason |
| `ServerReady.SyncRecords` | internal/controller/hcloudserver_controller.go:384-403 | a status sync: when the recorded type follows, and which reason Ready has, in terms of the state before the pass |
| `ServerReady.WritesDecideTheEnd` | internal/controller/hcloudserver_controller.go:166-206 | whether the status write works changes how a pass ends and nothing else |
| `ServerReady.FailuresRecordNothing` | internal/controller/hcloudserver_controller.go:166-206 | a pass that fails earlier changes the recorded network and the network note at most; before the network step nothing |
| `ServerReady.FailedStepNotesNothing` | internal/controller/hcloudserver_controller.go:213-319 | a network step that fails gives no new reason for being ready and forgets only a network it detached |
| `ServerReady.UnsupportedIff` | internal/controller/hcloudserver_controller.go:364-369 | a type change is unsupported exactly for a server being deleted or in an unknown state, before any call |
| `ServerReady.ImmediateResize` | internal/controller/hcloudserver_controller.go:321-370 | with immediate transitions a resize takes three passes: off, changed, running, each recorded as such |
| `ServerOwnership.SuccessReachesGoal` | internal/controller/hcloudserver_controller.go:208-319 | a pass past the network step leaves the target attached, the recorded one detached, all others as they were |
| `ServerOwnership.GoalSurvives` | internal/controller/hcloudserver_controller.go:208-319 | what is left to do after any failed pass is what was to be done before it |
| `ServerOwnership.NetworksRecover` | internal/controller/hcloudserver_controller.go:208-319 | after faults at any points the first successful pass puts the networks where it would have put them had nothing failed |
| `ServerOwnership.OwnedIsRecorded` | internal/controller/hcloudserver_controller.go:208-319 | at every point of a run what the operator attached and did not detach is at most the recorded network if and only if no pass that was due to attach a new network met a fault after the attach; all other faults are harmless |
| `ServerOwnership.AccountedIff` | internal/controller/hcloudserver_controller.go:208-319 | the same for one pass, exactly |
| `ServerOwnership.AttachesNewIff` | internal/controller/hcloudserver_controller.go:208-290 | the calls of a pass end by attaching a new network exactly if the state and the faults before the attach make one due |
| `ServerOwnership.AttachIsLost` | internal/controller/hcloudserver_controller.go:265-319 | after a new attach with a lost answer, a failed refresh or no status write, the stored status does not name it |
| `ServerOwnership.AttachIsRecorded` | internal/controller/hcloudserver_controller.go:265-319 | an attach with no fault after it is named by the stored status |
| `ServerOwnership.UnrecordedNetworkLeaks` | internal/controller/hcloudserver_controller.go:213-222 | a network attached, not recorded and not asked for stays attached over every run; with no record at all no network changes |
| `ServerOwnership.FaultAfterAttachLosesRecord` | internal/controller/hcloudserver_controller.go:265-300 | every such fault leaves the network attached, unaccounted for, and leaking once the spec drops it |
| `ServerOwnership.RefusedRefreshLosesRecord` | internal/controller/hcloudserver_controller.go:273-287 | an input for it: a first attach whose refresh is refused |
| `ServerOwnership.ReadyMeansRunning` | internal/controller/hcloudserver_controller.go:384-403 | after a status sync Ready is true exactly when type and power are as wanted, whichever reason is kept |
| `ServerOwnership.PanicsIff` | internal/controller/hcloudserver_controller.go:171-188 | a pass reads a missing server exactly if one of its three calls is due and works and the server is deleted before the refresh |
| `ServerOwnership.DeletionMidPassPanics` | internal/controller/hcloudserver_controller.go:321-345 | an input for it: power off, all answered, deleted before the refresh |
| `Addresses.PassResult` | internal/controller/hcloudfloatingip_controller.go:173-291 | the metadata, assignment, DNS entry and record after one successful pass from any state |
| `Addresses.PassKeepsTheRest` | internal/controller/hcloudprimaryip_controller.go:218-293 | a successful pass leaves alone what the flavor does not have, an auto-delete the spec does not set, and the DNS entries of other addresses; what it records without a target |
| `Addresses.PassCalls` | internal/controller/hcloudprimaryip_controller.go:139-293 | the calls of a successful pass, in order: one metadata update with what differs if anything does, the moves due (unassign before assign), the DNS entry if it is wrong |
| `Addresses.FailureRecords` | internal/controller/hcloudfloatingip_controller.go:173-214 | a pass that fails records nothing but an assignment that worked |
| `Addresses.FixpointInTwoPasses` | internal/controller/hcloudfloatingip_controller.go:216-291 | two successful passes reach the spec from any state and later ones change nothing |
| `Addresses.CalmPassFinishes` | internal/controller/hcloudfloatingip_controller.go:173-214 | a pass with every call answered on an address nobody deletes finishes |
| `Addresses.CalmPassesReachSpec` | internal/controller/hcloudfloatingip_controller.go:173-291 | so two of them reach the spec from any state |
| `Addresses.MatchedIsSilent` | internal/controller/hcloudprimaryip_controller.go:218-293 | a pass over an address that matches makes no call that changes it |
| `Addresses.SecondPassNeededIff` | internal/hcloud/fake_client.go:987-999 | the second pass changes the cloud exactly after a blanked description or an unrecorded assignment with no target |
| `Addresses.IPReconciler.ReconcileIP` | internal/controller/hcloudfloatingip_controller.go:173-214 | the pass in place is the specified one and touches no other address |
| `Addresses.IPReconciler.EnsureAssignment` | internal/controller/hcloudfloatingip_controller.go:234-268 | unassign, assign and record in place |
| `Volumes.PassNeverShrinks` | internal/controller/hcloudvolume_controller.go:163-250 | a pass never shrinks a volume nor replaces one that is deleted under it |
| `Volumes.SizeNeverShrinks` | internal/controller/hcloudvolume_controller.go:163-250 | over every run of passes with any specs, faults and meddling a volume's size never decreases while it is there, and only others remove it |
| `Volumes.SuccessMatchesSpec` | internal/controller/hcloudvolume_controller.go:163-250 | a successful pass leaves size and attachment of the spec |
| `Volumes.StatusAgreesIff` | internal/controller/hcloudvolume_controller.go:222-242 | the status agrees with the cloud after one pass except after a detach without a target, and then after two |
| `Volumes.TwoPassesRecover` | internal/controller/hcloudvolume_controller.go:163-250 | after any run, two undisturbed passes bring cloud and status to the spec |
| `Volumes.FailureRecordsNothing` | internal/controller/hcloudvolume_controller.go:163-250 | a pass that fails leaves the status alone |
| `Volumes.TooBigIsAnError` | internal/controller/hcloudvolume_controller.go:204-219 | a volume that is too big is an error before any call |
| `Volumes.NewVolumeIsOnTarget` | internal/controller/hcloudvolume_controller.go:184-202 | a new volume is made on its target, with no call after the create |
| `Volumes.CloudRefusesIff` | internal/hcloud/fake_client.go:291-385 | what the cloud refuses: a second volume of the name, shrinking, attaching an attached one, deleting an attached one |
| `Volumes.AlreadyAttachedIff` | internal/hcloud/fake_client.go:343-357 | with answered calls "already attached" is provoked exactly by someone attaching just before the pass does |
| `Volumes.AlreadyAttachedNeedsSomeone` | internal/hcloud/fake_client.go:343-357 | whatever calls fail and whatever the pass starts from, that answer needs someone to attach just before |
| `Volumes.CleanPassFinishesIff` | internal/controller/hcloudvolume_controller.go:202-250 | a pass with nothing in its way finishes exactly if the volume need not shrink |
| `Volumes.NoAttachmentErrors` | internal/hcloud/fake_client.go:325-357 | without interference neither attachment error is reachable, whatever calls fail |
| `Volumes.DeletePassIff` | internal/controller/hcloudvolume_controller.go:130-161 | a clean delete pass leaves no volume and succeeds exactly if it existed or no attachment was recorded |
| `Volumes.DeletePassWorksIff` | internal/controller/hcloudvolume_controller.go:130-161 | whatever calls fail: it succeeds exactly if look and delete are answered and so is the detach, where one is due, of a volume that is there |
| `Volumes.NothingRecordedNothingDeleted` | internal/controller/hcloudvolume_controller.go:130-133 | with no recorded volume a delete pass succeeds and leaves the cloud alone |
| `Volumes.VolumeReconciler.ReconcileHCloudVolume` | internal/controller/hcloudvolume_controller.go:163-250 | the pass in place is the specified one |
| `Volumes.VolumeReconciler.DeleteHCloudVolume` | internal/controller/hcloudvolume_controller.go:130-161 | the delete pass in place |
| `Services.UpdateTakesIff` | internal/hcloud/loadbalancer_service.go:175-193 | an update makes the cloud's service equal to the wanted one exactly if every field the cloud holds is set and none to a zero value |
| `Services.AddTakesIff` | internal/hcloud/loadbalancer_service.go:156-173 | the same for a new service |
| `Services.ServicesEqualIs` | internal/hcloud/loadbalancer_service.go:277-289 | two services compare as equal exactly if they are equal, apart from a health check nobody asks for |
| `Services.HoldsIff` | internal/hcloud/loadbalancer_service.go:89-154 | what is read back needs no update exactly if the cloud holds the wanted service, field by field |
| `Services.UpdateSendsOnlyWhatIsSet` | internal/hcloud/loadbalancer_service.go:175-193 | an update never moves a service, always sends destination and proxy flag, and leaves every other field that is unset, and the whole check if none is asked for, as the cloud has it |
| `Services.LastWins` | internal/hcloud/loadbalancer_service.go:50-53 | of several wanted services on one port the last counts |
| `Services.DisagreeingIs` | internal/hcloud/loadbalancer_service.go:58-87 | the ports the diff deals with are exactly those where the cloud does not hold what is wanted |
| `Services.ByPortKeyed` | internal/hcloud/loadbalancer_service.go:50-53 | the map by port is keyed by the port of its services |
| `Services.SameHTTPIsEquality` | internal/hcloud/loadbalancer_service.go:320-342 | the field-by-field comparison of HTTP checks is equality |
| `Services.SyncReachesIff` | internal/hcloud/loadbalancer_service.go:41-87 | the port-keyed diff leaves exactly the wanted ports, agrees on all of them exactly if every call takes, and a second sync then does nothing |
| `Services.SyncsReachIff` | internal/hcloud/loadbalancer_service.go:41-87 | any number of syncs reaches the wanted services exactly if every call of the first one takes |
| `Services.SyncRefinesReplacement` | internal/hcloud/fake_client.go:773-783 | with distinct ports a settled diff ends with the same ports as wholesale replacement, and on each the cloud holds the wanted protocol, destination, proxy flag, certificates and check |
| `Services.LeftOver` | internal/hcloud/loadbalancer_service.go:58-87 | at every point of the diff exactly the ports dealt with have stopped disagreeing |
| `Services.ServiceCloud.SyncLoadBalancerServices` | internal/hcloud/loadbalancer_service.go:41-87 | in place, in any map order and with any call failing: deletions first, one call per disagreeing port, never a port twice, all of them without a failure; settled, the cloud then holds every wanted service |
| `LoadBalancers.ResolvedIff` | internal/controller/hcloudloadbalancer_controller.go:290-323 | nothing is pending exactly if every non-empty reference is ready, and then the IDs are the recorded ones in order |
| `LoadBalancers.ResolveFailsIff` | internal/controller/hcloudloadbalancer_controller.go:300-317 | resolution fails exactly if a non-empty reference cannot be read |
| `LoadBalancers.ListenersComplete` | internal/controller/hcloudloadbalancer_controller.go:226-288 | services are not pending exactly if all certificates are ready, and then every listener carries all of its own |
| `LoadBalancers.SpecSays` | internal/controller/hcloudloadbalancer_controller.go:235-285 | the service of a spec listens and leads where the spec says, with its protocol, its proxy flag only if set true, and a check exactly if it has one, with times in nanoseconds |
| `LoadBalancers.NeverFewerThanBoth` | internal/controller/hcloudloadbalancer_controller.go:179-204 | at every point of the target loops: between intersection and union, nothing detached before all are attached, one server closer per call |
| `LoadBalancers.TargetsAre` | internal/controller/hcloudloadbalancer_controller.go:188-204 | the targets after any part of such calls |
| `LoadBalancerPass.ResolveCertificateIDs` | internal/controller/hcloudloadbalancer_controller.go:290-323 | the loop computes the specified IDs, pending flag or error |
| `LoadBalancerPass.ServicesFromSpec` | internal/controller/hcloudloadbalancer_controller.go:226-288 | the loop computes the specified services, pending flag or error; every service says what its spec says, field by field |
| `LoadBalancerPass.FakeLoadBalancers.Attach` | internal/hcloud/fake_client.go:464-482 | append once, only a known server |
| `LoadBalancerPass.FakeLoadBalancers.Detach` | internal/hcloud/fake_client.go:484-500 | the in-place filter removes exactly this server |
| `LoadBalancerPass.LoadBalancerReconciler.AttachMissing` | internal/controller/hcloudloadbalancer_controller.go:188-195 | any order, any failure: only missing servers, each once, all of them without a failure |
| `LoadBalancerPass.LoadBalancerReconciler.DetachSurplus` | internal/controller/hcloudloadbalancer_controller.go:196-204 | the same for surplus servers, after which the targets are the selection |
| `LoadBalancerPass.LoadBalancerReconciler.FoundOrCreated` | internal/controller/hcloudloadbalancer_controller.go:149-177 | a live recorded ID is used, else the name, else one is created; "already exists" cannot come back |
| `LoadBalancerPass.LoadBalancerReconciler.ReconcileWithServices` | internal/controller/hcloudloadbalancer_controller.go:143-224 | every call is accounted for: at most one create, make-before-break moves, one push; a finished pass leaves and records exactly the selection, sorted |
| `LoadBalancerPass.LoadBalancerReconciler.ReconcileLoadBalancer` | internal/controller/hcloudloadbalancer_controller.go:126-141 | no call at all unless every certificate is ready; services pushed say what the spec says, service by service, with all certificates |
| `LoadBalancerPass.SortedTargets` | internal/controller/hcloudloadbalancer_controller.go:218-221 | the status lists exactly the targets, sorted, without repeats |
| `FirewallRules.CanonicalIff` | internal/controller/hcloudfirewall_controller.go:259-277 | canonical strings are equal exactly if the rules say the same, given no NUL and non-empty addresses without commas |
| `FirewallRules.ListIff` | internal/controller/hcloudfirewall_controller.go:260-276 | joined sorted address lists are equal exactly if the lists are equal as multisets |
| `FirewallRules.EmptyAddressCollides` | internal/controller/hcloudfirewall_controller.go:272-276 | an empty address looks like none |
| `FirewallRules.CommaCollides` | internal/controller/hcloudfirewall_controller.go:272-276 | an address with a comma looks like two |
| `FirewallRules.NulCollides` | internal/controller/hcloudfirewall_controller.go:272-276 | a NUL moves text between fields |
| `FirewallRules.RulesMatch` | internal/controller/hcloudfirewall_controller.go:236-257 | the counting loops answer exactly whether the multisets of canonical strings are equal |
| `FirewallRules.PermutationMatches` | internal/controller/hcloudfirewall_controller.go:236-277 | rules that say the same in any order match, whatever texts they hold |
| `FirewallRules.MatchIffPermutation` | internal/controller/hcloudfirewall_controller.go:236-277 | rules match exactly if the observed ones can be reordered to say the same as the desired ones one by one |
| `FirewallRules.StoredMatch` | internal/hcloud/fake_client.go:584-613 | rules that were just stored match, whatever they hold, and normalising twice is normalising once |
| `FirewallRules.NormalIs` | internal/controller/hcloudfirewall_controller.go:197-213 | normalising keeps direction, protocol, port and description and only reorders the addresses |
| `FirewallRules.CloneRules` | internal/controller/hcloudfirewall_controller.go:197-213 | the conversion loop keeps every rule and sorts its addresses |
| `Firewalls.KeyInjective` | internal/hcloud/firewall.go:252-261 | a key names one attachment, for the two types in use |
| `Firewalls.SameKeysSameResources` | internal/hcloud/firewall.go:252-261 | equal key sets mean equal attachments |
| `Firewalls.AppliedKeys` | internal/hcloud/fake_client.go:712-731 | applying yields the union of keys, each once |
| `Firewalls.KeptKeys` | internal/hcloud/fake_client.go:733-753 | removing yields the difference, each key once |
| `Firewalls.DesiredAre` | internal/controller/hcloudfirewall_controller.go:147-180 | the desired attachments are the selector and each referenced server with an ID, once; none without the section |
| `Firewalls.DesiredServersAre` | internal/controller/hcloudfirewall_controller.go:158-178 | fails exactly on a named server that does not exist; otherwise the recorded IDs of the named ones, once each |
| `Firewalls.ApplyFailsIff` | internal/controller/hcloudfirewall_controller.go:147-180 | the desired attachments fail exactly if one of the named servers does not exist |
| `FirewallPass.FilterOut` | internal/hcloud/fake_client.go:740-751 | the in-place filter |
| `FirewallPass.AppendNew` | internal/hcloud/fake_client.go:719-729 | the appending loop |
| `FirewallPass.PartitionApplyTargets` | internal/controller/hcloudfirewall_controller.go:279-299 | in any map order: what to remove and what to add have exactly the keys of the two differences |
| `FirewallPass.DesiredApplyResources` | internal/controller/hcloudfirewall_controller.go:147-180 | the loop with its set of servers seen computes the specified list or error |
| `FirewallPass.FirewallReconciler.ReconcileExisting` | internal/controller/hcloudfirewall_controller.go:103-145 | a success leaves labels, rules and keys as desired, no labels counting as the empty map; on a firewall in sync nothing is called; every exit leaves the keys between intersection and union; labels, rules, removal, application in that order, each at most once |
| `FirewallPass.FirewallReconciler.CreateMissing` | internal/controller/hcloudfirewall_controller.go:87-101 | a created firewall is as desired and "already exists" cannot come back |
| `FirewallPass.FirewallReconciler.ReconcileHCloudFirewall` | internal/controller/hcloudfirewall_controller.go:67-145 | the whole pass: in sync after a success, no mutating call when the recorded firewall already is, nothing at all when a server reference does not resolve, and never "already exists" |
| `Networks.NetworkReconciler.AddSubnets` | internal/controller/hcloudnetwork_controller.go:107-123 | at every exit the network has its initial zones and one more per call, each call for a different missing zone of the spec |
| `Networks.NetworkReconciler.ReconcileSubnets` | internal/controller/hcloudnetwork_controller.go:107-131 | for any zone list with repeats a success leaves initial and spec zones, with exactly as many calls as zones were missing, and writes a sorted permutation of them to the status |
| `Networks.FakeNetworks.AddNetworkCloudSubnet` | internal/hcloud/fake_client.go:755-771 | append once and sort, in place |
| `Texts.JoinInjective` | internal/controller/hcloudfirewall_controller.go:272-276 | joining parts free of the separator loses nothing |
| `Texts.DecimalInjective` | internal/hcloud/firewall.go:255-255 | different server IDs have different decimal texts |

## Left out

- The real client (internal/hcloud/client.go) and the SDK behind it: the in-memory client is the cloud's semantics; the service diff, which exists only there, is modelled with these assumptions about the SDK: an update leaves unset fields as they were, an empty protocol is unset, status codes are always sent, an added service starts blank and gets a health check of the cloud's choice if none is asked for.
- Metrics, instrumentation, code generation, events, logging, watches, field indexes, leader election.
- The informer cache and the work queue: reads are current and one pass at a time works on an object; others act between operations.
- Timestamps, requeue delays, locations, image and key settings of servers: they do not influence any branch that is modelled.
- Label-selector, CIDR and PEM parsing: selectors arrive as the set of selected server IDs, certificates as ready or not, addresses as texts.
- Placement-group and certificate reconcilers have no module of their own: their lookup, creation and deletion are instances of `Lifecycle`.
- Lookup and creation are proved over whole runs once, in `Lifecycle`, with flags for when a kind records the ID, and repeated in place for servers, load balancers and firewalls only; in `Lifecycle` the work on a found resource is reduced to whether it succeeds and which attachment it leaves, and a reference that does not resolve ends a pass before the lookup (for a server it does so between lookup and create, with the same effect).
- IDs are counted per kind: the fake shares one counter between kinds, and no branch compares IDs of different kinds.
- Public addresses in server and load-balancer statuses, condition messages, and the text form of power states.
- The exponential backoff between status-write attempts: only their number and what happens between them.
- A reference that resolves to a placement group or network is its recorded ID; reading those objects is not modelled further.
- FairRunsConvergeIff: takes a non-empty server type in the spec, as the API's validation does.
- RestartsIff: begins with a running server of the wrong type; what happens to one found off is `RunFollowsCycle`.
- NoDuplicates: another party may create a resource of the name at any time between passes; between the lookup and the create of one pass only on a cloud that refuses the second one, because otherwise `IntrusionDuplicates` applies.
- RunFollowsCycle: nobody deletes the server or changes its type or power from outside during the run, here and in the other theorems about server runs; every call may fail, lose its answer, or find the server drifting.
- KeyInjective: covers the two attachment types in use; for any other type the key drops all other fields.
- ReconcileLoadBalancer: during a load-balancer, firewall or network pass others may delete resources before any call, but do not edit the resource the pass works on.
