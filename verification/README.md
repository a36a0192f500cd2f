# KubeLoop: verified models of its stateful cores

KubeLoop connects a developer's machine to a Kubernetes cluster. Five of its parts change state that others depend on
and have to leave it right whatever fails, and this project models them and proves what they promise.

**The TrafficBinding operator** (`Kube`, `Bindings`, `Safety`, `Writes`, `Api`, `StatusWriter`, `Validation`,
`Restore`, `Intercept`, `PreviewService`, `Controller`, `Runs`, `ManyBindings`, `Boundaries`, `Mishaps`). The operator
takes over a user's Service: it records selector, EndpointSlices and Endpoints in the binding's status, empties the
selector, deletes the slices and installs one slice of its own that points at a relay; on pause or deletion it undoes
all of it. `Api.ApiServer` is the API server together with everybody else who writes to it. Every call may fail before
or after it took effect, the operator may stop at any call, and between any two calls users, other controllers and
other bindings may move within `Drifts` (inside a reconcile) and `Outside` (between reconciles). Each write method
asks its caller for the condition under which that write is allowed and extends a ghost history; `Valid` says that
every world in the history satisfies the invariant `Inv` and every step of the operator its `Guarantee`. So what is
proved of `Inv` and `Guarantee` holds in every state of every run. Two constants restrict a run: `exclusive` (nobody
else writes the Services, slices and Endpoints in `Shared`; needed for exact restoration) and `quiet` (nothing fails
and nobody interferes from its start on, whatever has happened before; needed for convergence, which is stated for
every such run and world of the invariant, with the exact condition). `Controller.Decide` is the branch a pass takes,
a function of the copy it has read and of nothing else, and `Reconcile` is proved to follow it in every world of the
invariant, and in every run, whatever fails and whoever interferes, to have done the work of its branch before it
stores a status or drops the finalizer (`Controller.Acted`); outside of it, where the failures below lie, that a pass follows it is a hypothesis (`Follows`). For five
of the assumptions about the other parties (pauses while an intercept waits for a relay, a withdrawn relay, a Service
that changes between a read and a patch, a snapshot that holds another binding's slice, a Service copied with its
annotations) `Boundaries` has the exact condition under which the operator does no harm without them, and `Mishaps` a
cluster in which it does. Edits of the status by others and concurrent reconciles have no such result.

**The supervisor's updater** (`Host`, `Updater`, `UpdateRuns`). A worker binary is staged, journaled, swapped, watched
and if need be rolled back. `Host.Machine` is the file system and the worker; any operation may fail, the supervisor
may die between any two, and `trail` keeps every state of the files. Three windows are exceptions by design of the
code and are stated as such: `Unjournaled` (the payload staged, the first journal not yet written), `SetAside` (the
old worker moved away, the second journal not yet written) and `PutBack` (rolled back, the journal not yet removed).
`Update` states which runs go through which of them.

**Tunnel routes** (`Prefixes`, `Sorting`, `Routes`, `Diagnostics`). Address blocks with their arithmetic (section 3.1
of RFC 4632, section 2.3 of RFC 4291), their compaction for the tunnel and the check for conflicts with host routes.

**The privileged helper** (`Sessions`, `SessionRuns`, `SessionSettings`, `SessionDeadlock`, `SessionAnswers`, `Install`). Session
requests, exit waiters and three kinds of lock as an interleaving of atomic steps; and the installation of four files
with its rollback. DNS settings count as installed when `ApplyDNS` has reported so; what a failing call leaves is what
was there before, an incomplete configuration or none.

**Smaller cores**: the gateway's session accounting (`Gateway`) and the removal of a table from a configuration file
(`TomlSplice`).

Findings. (1) The log reader of the helper takes the lock of a session while it holds `mu`, the exit waiter takes them
the other way round: `SessionDeadlock` gives a run into the deadlock, shows that it is for good, and that there is no
other. (2) An intercept whose relay is withdrawn falls back to Pending and keeps its snapshot, as it must; but a pause
asked of it there is recorded as Paused without a restore, and with it the snapshot goes, and then the finalizer on
deletion: `Mishaps.InterceptionIsLeftBehind`, `Boundaries.SnapshotLostWhen`, `Boundaries.PauseIsSafeWhen`. (3) Both
patches of a Service, claim and release, name it without the UID that was read: a replacement is claimed or given its
predecessor's selector, and another binding's claim is overwritten or erased (`Boundaries.ClaimLandsWellWhen`,
`Boundaries.ReleaseLandsWellWhen`, four lemmas of `Mishaps`). (4) An update that is stopped before its journal is
written leaves its staged file behind; recovery looks at nothing without a journal (`UpdateRuns.UpdateStopRecover`).
(5) If an update of the DNS settings fails halfway and putting the old ones back fails too, that second error is
discarded: the session runs on with neither, until a later update succeeds or it ends
(`SessionSettings.UnsettledIsReachable`, `SessionSettings.UnsettledBy`). (6) A journal left in its swap phase by an
update whose rollback failed stays in force until the next update writes its own: a recovery in between puts the
previous worker in the place of the installed one, however that runs, unless the first status it sees is the one the
journal announces (`Updater.Resumed`, `UpdateRuns.StaleJournalDisplaces`). (7) A capture that falls between another
binding's release of the Service and its deletion of the managed slice records that slice and may bring it back later
(`Mishaps.SliceIsRecorded`, `Mishaps.SliceOutlivesItsBinding`). (8) The cleanup of an intercept whose Service was
deleted succeeds at once, though a copy made with its annotations still carries the mark and has no selector
(`Boundaries.CleanupLeavesMarksWhen`, `Mishaps.CopyIsLeftBehind`). (9) A rollback is refused when the Service was
replaced, is another binding's, or something else has the name of the managed slice, and without a snapshot when the
Service carries the binding's own name: as long as nobody changes that, the deletion stays in Restoring, the pause in
Pausing (`Runs.FinishDeletion`, `Runs.FinishPause`, `Mishaps.RollbackIsRefused`). (10) An interception finds out last
that the name of the managed slice is taken: by then the Service has neither selector, slices nor Endpoints
(`Intercept.ReconcileIntercept`, `Mishaps.RelayHasNoPlace`). (11) A start of a session whose entry is still there
succeeds at once, though that session has ended and is being taken down, or was started with other settings
(`SessionAnswers.StartSucceeds`, `SessionAnswers.StartOverEnding`).

## Model

| member | source | states |
|---|---|---|
| Runs.SnapshotBeforeMutation | internal/controller/trafficbinding_controller.go:194-225 | In every reachable state, a Service carrying the binding's UID, or its managed slice, implies that the binding exists, holds its finalizer and stores a snapshot of that Service, same name and UID; it is not Paused, Restored or without a phase, and a waiting one is not to be paused |
| Runs.CaptureSeesTheOriginal | internal/controller/trafficbinding_controller.go:207-216 | A binding without a snapshot has no mark anywhere, so a capture never records a Service this binding has emptied; in an exclusive run it sees the original cluster after any number of earlier interceptions and restores |
| Runs.RestedIsOriginal | internal/controller/trafficbinding_restore.go:17-57 | In an exclusive run, whenever the binding is gone, Paused, Restored or without a phase, or Pending without a snapshot, Services, slices and Endpoints are exactly what they were before it existed |
| Runs.ConditionsAgree | internal/controller/trafficbinding_status.go:17-319 | In every reachable state Ready, Paused and Restored are true exactly in the phase of that name, no two of Ready, Degraded, Paused and Restored are true together, and Degraded only in Degraded, Pausing or Restoring |
| Runs.FinalizerGoesLast | internal/controller/trafficbinding_controller.go:55-92 | The step that drops the finalizer finds no Service with the binding's UID and no slice of its own, also on the shortcut from Paused; in an exclusive run the cluster is the original one |
| Runs.ForeignServiceUntouched | internal/controller/trafficbinding_intercept.go:96-105 | While another binding's UID is on the Service, no step of an intercepting binding changes any Service, any Endpoints or any slice but its own managed one |
| Runs.OtherBindingsAreOutsiders | internal/controller/trafficbinding_restore.go:29-34 | Steps the operator is allowed for another binding of any mode are steps this binding tolerates, and its invariant survives them, unless the other's snapshot holds this binding's managed slice |
| ManyBindings.RunsKeepAllSafe | internal/controller/trafficbinding_restore.go:29-34 | In every run of any number of bindings over one cluster, with the operator's writes for them interleaved in any way, each binding satisfies its invariant in every state, as long as no snapshot has come to hold another's managed slice |
| Runs.UnrelatedSlicesStay | internal/controller/trafficbinding_intercept.go:118-133 | A slice that is not the managed one, not named in the snapshot and never seen labelled with the Service is left alone by every step of the operator |
| Runs.Run | internal/controller/trafficbinding_controller.go:49-148 | Any number of reconciles with any failures, stops and outside steps: a chain of states that all satisfy the invariant, through steps that all satisfy the guarantee; no slice is deleted but the managed one and those that an intercept has found labelled with its Service |
| Runs.RestMeans | internal/controller/trafficbinding_controller.go:108-134 | Where the rank is zero, in any world of the invariant, the generation is the observed one, and: an invalid spec is Degraded and not Accepted; a valid one whose `desiredState` is Paused is Paused without a mark; any other without the relay its mode takes is Pending, with its snapshot if there are marks; every other one, with `desiredState` unset or Active, is Ready and served |
| Runs.RestedExactly | internal/controller/trafficbinding_controller.go:108-134 | In an exclusive run a binding whose `desiredState` is Paused has left the original cluster, one without relay too or all that is needed to restore it, and an intercept the original redirected in full |
| Runs.RankBound | internal/controller/trafficbinding_controller.go:49-148 | The rank is at most four, two for a pause, between one and three under deletion, and zero only for a binding at rest |
| Runs.Settle | internal/controller/trafficbinding_controller.go:49-148 | In a run without failures and interference, whoever wrote what before, four passes bring every binding that comes to rest at all to rest, and a deleted one is gone |
| Runs.SettleExactly | internal/controller/trafficbinding_controller.go:49-148 | After four or more such passes a binding is at rest if and only if, at the start, a rollback it still had to do was not refused (`Restore.Undoable`) and what it needed to serve was there (`Controller.Attainable`); otherwise it is in Restoring, in Pausing, or in Reconciling or Degraded |
| Runs.FinishPause | internal/controller/trafficbinding_controller.go:155-192 | A pause asked for in the spec is over after two undisturbed passes if and only if its rollback is not refused or none is left to do; otherwise it stays in Pausing |
| Runs.FinishService | internal/controller/trafficbinding_controller.go:108-147 | A valid binding that is not deleted, has whatever relay its mode takes and a `desiredState` that is unset or Active is Ready and served after four undisturbed passes if and only if what it needs is there; otherwise it is in Reconciling or Degraded |
| Runs.ActiveIsNeverPaused | internal/controller/trafficbinding_controller.go:260-267 | In every run, whatever fails: a pass that has read a valid binding with `desiredState` unset or Active and does not report a failure leaves it in Pending, Reconciling, Ready or Degraded, never in Pausing or Paused |
| Runs.ComesExclusively | internal/controller/trafficbinding_controller.go:49-148 | In an exclusive run a binding comes to rest if and only if it is not to serve or the original cluster makes it serviceable |
| Runs.AlwaysUndone | internal/controller/trafficbinding_restore.go:17-83 | In an exclusive run no rollback is refused |
| Runs.AttainableMeansServiceable | internal/controller/trafficbinding_intercept.go:86-106 | In an exclusive run the present cluster lets passes succeed exactly if the original one does |
| Runs.FinishDeletion | internal/controller/trafficbinding_controller.go:55-92 | In a run without failures and interference a deletion is over after three passes if and only if it was Restored or Paused or its rollback is not refused, whatever the spec says, and then nothing is marked; otherwise it stays in Restoring. In an exclusive run it is over, and the cluster is the original one |
| Controller.Reconcile | internal/controller/trafficbinding_controller.go:49-148 | One pass keeps the run valid. In every run, unless it reports a failure, it has done what the branch for the copy it has read asks for and stored its status: Ready only after the binding was served, Paused and Restored only after what was captured was written back or the Service was gone, the finalizer goes with the object (`Acted`). Without failures and interference its effect is the one of that branch; a binding at rest is left alone without a single write, one that comes to rest gets closer and asks to be called again exactly until it is there (`Answered`), one that is stuck stays so; an invalid spec ends exactly in Degraded with Accepted false; a blocked binding alternates |
| Controller.FollowsAdvances | internal/controller/trafficbinding_controller.go:49-148 | What the branches do, taken together, lowers the rank of every binding that comes to rest and never frees one that is stuck |
| Controller.SameChances | internal/controller/trafficbinding_restore.go:17-83 | Of the status, only the snapshot and the recorded Service decide whether a rollback or an interception is refused |
| Controller.CaptureAdvances | internal/controller/trafficbinding_controller.go:207-216 | An intercept that could be captured can be redirected with the snapshot taken, unless the name of the managed slice is taken |
| Controller.SuccessServes | internal/controller/trafficbinding_controller.go:128-136 | A successful pass serves the binding, and leaves one that was served as it was |
| Controller.ReconcileValid | internal/controller/trafficbinding_controller.go:98-147 | The part after validation: the branch decided on from the spec, what it does in every run and undisturbed, and whether another pass is asked for |
| Controller.ReconcileDeleting | internal/controller/trafficbinding_controller.go:55-92 | Restoring, cleanup, Restored, finalizer, in this order, whatever the spec says; Restored is recorded exactly if the rollback is not refused, and only with no mark left |
| Controller.ReconcilePaused | internal/controller/trafficbinding_controller.go:155-192 | Pausing reaches Paused exactly if the rollback is not refused, and stays there; the snapshot goes only after the restore succeeded or where there is nothing to restore |
| Controller.AwaitRelay | internal/controller/trafficbinding_controller.go:112-119 | Without a relay the binding falls back to Pending, keeps its snapshot and leaves the cluster alone |
| Controller.TakeUp | internal/controller/trafficbinding_controller.go:119-126 | Any other phase turns into Reconciling before anything is done |
| Controller.ReconcileActive | internal/controller/trafficbinding_controller.go:194-225 | Without a snapshot only capture and persist, exactly if the Service can be captured; otherwise success exactly if what is needed is there, with the served cluster, and after a failure it still is not; at rest nothing is written; the error is permanent unless the Service is missing; in every run success means served since the pass began |
| Controller.CaptureAndPersist | internal/controller/trafficbinding_controller.go:207-216 | The stored binding gets the snapshot before anything is touched, or nothing is stored |
| Controller.ReconcileServing | internal/controller/trafficbinding_controller.go:127-147 | Ready after a complete pass, the snapshot after a capture, Degraded after a failed one, in every run only with the work done |
| Controller.Degrade | internal/controller/trafficbinding_controller.go:138-147 | A failure shows as Degraded; a permanent one is not tried again, every other is, and edits of the local copy that were never stored are not sent |
| Controller.Adopt | internal/controller/trafficbinding_controller.go:98-108 | The finalizer goes on before anything else |
| Controller.Cleanup | internal/controller/trafficbinding_controller.go:227-258 | A cleanup that succeeds leaves no mark and, in an exclusive run, the original cluster, and in every run has written back what was captured or found the Service gone; without failures and interference it succeeds if and only if the rollback is not refused, and a refused one stays refused with a permanent error |
| Controller.ValidateTarget | internal/controller/trafficbinding_target.go:20-44 | A Service target is accepted exactly if it exists and exposes the port, in every run at some moment since; a missing one is not a permanent error, a missing port is |
| Controller.FreshCopy | internal/controller/trafficbinding_controller.go:50-54 | What a reconcile may take for granted about the copy it has just read |
| Controller.ReadyIsServing | internal/controller/trafficbinding_controller.go:128-136 | Recording readiness turns a served cluster into one at rest |
| Controller.ServingIsStable | internal/controller/trafficbinding_status.go:68-111 | At rest a pass finds the cluster as it leaves it, and the intended ready status is the stored one |
| Boundaries.FreshStart | internal/controller/trafficbinding_controller.go:49-108 | Runs can start: any new binding in a cluster without a trace of it satisfies the invariant |
| Boundaries.SnapshotLostWhen | internal/controller/trafficbinding_controller.go:155-176 | A pass that leaves marks behind has lost the snapshot if and only if it dropped the finalizer in Restored, was to pause a binding in Pending, in Paused of an earlier generation or without a phase, or recorded the cleanup of a pause as done; from a safe world none of these happens |
| Boundaries.CleanupLeavesMarksWhen | internal/controller/trafficbinding_restore.go:24-43 | A cleanup that is recorded as done leaves marks if and only if a Service of another name carries the binding's UID |
| Boundaries.PauseIsSafeWhen | internal/controller/trafficbinding_controller.go:170-173 | A pause asked of an active intercept, and the pass it triggers, end in a safe state if and only if the binding does not wait in Pending over marks; the cluster is left as it was |
| Boundaries.FallBackIsSafeWhen | internal/controller/trafficbinding_controller.go:112-119 | The same for a pause that comes during the pass that falls back to Pending |
| Boundaries.WithdrawnThenPaused | internal/controller/trafficbinding_controller.go:108-119 | Relay withdrawn, a pass, a pause, a pass: no snapshot is left and nothing was restored, which is safe if and only if there were no marks; up to the pause every state of an intercept is safe |
| Boundaries.ClaimLandsWellWhen | internal/controller/trafficbinding_intercept.go:107-116 | A claim computed from an earlier read keeps invariant and guarantee if and only if it changes nothing or the stored Service still has the UID of the snapshot and is not claimed by another binding |
| Boundaries.ReleaseLandsWellWhen | internal/controller/trafficbinding_restore.go:35-40 | The same for a release |
| Boundaries.ReturnOfTheSliceIsSafeWhen | internal/controller/trafficbinding_restore.go:44-50 | Restoring another binding's managed slice from a snapshot is within the guarantee, and safe for that binding if and only if it may have marks and controls the slice |
| Mishaps.InterceptionIsLeftBehind | internal/controller/trafficbinding_controller.go:108-119 | In a concrete cluster: relay withdrawn, Pending, pause, Paused, deletion; the binding is gone and its Service without a selector |
| Mishaps.RollbackIsRefused | internal/controller/trafficbinding_restore.go:29-31 | In a concrete cluster: the Service of a serving intercept replaced, then the binding deleted or asked to pause; each step is within the rights of the users, and the binding is stuck |
| Mishaps.RelayHasNoPlace | internal/controller/trafficbinding_relay.go:20-72 | In a concrete cluster: a slice nobody marked has the name of the managed one, and the intercept is stuck |
| Mishaps.CopyIsLeftBehind | internal/controller/trafficbinding_restore.go:24-27 | In a concrete cluster: the Service gone and copied with its annotations, a pause ends in Paused without a snapshot while the copy is marked and without a selector |
| Mishaps.ReplacementIsClaimed | internal/controller/trafficbinding_intercept.go:107-116 | In a concrete cluster: a replaced Service is claimed |
| Mishaps.ReplacementIsReleased | internal/controller/trafficbinding_restore.go:35-40 | In a concrete cluster: a replaced Service gets the selector of its predecessor |
| Mishaps.ClaimIsOverwritten | internal/controller/trafficbinding_intercept.go:107-116 | In a concrete cluster: a Service another binding has just claimed is taken from it |
| Mishaps.ClaimIsErased | internal/controller/trafficbinding_restore.go:35-40 | In a concrete cluster: a release erases the claim of another binding |
| Mishaps.SliceIsRecorded | internal/controller/trafficbinding_intercept.go:52-76 | In a concrete cluster: between the release of the Service and the deletion of the managed slice by a binding that is pausing, the capture for another binding records that slice |
| Mishaps.SliceOutlivesItsBinding | internal/controller/trafficbinding_restore.go:44-50 | In a concrete cluster: restored after that binding is gone, the slice stays for good |
| Boundaries.BlockedStays | internal/controller/trafficbinding_controller.go:119-147 | A binding whose passes fail before they change anything (a Service that cannot be captured, was replaced, lost a port or is another binding's, a taken preview name, a missing port to forward to) stays blocked and every pass changes its phase, so it never rests |
| Boundaries.Alternate | internal/controller/trafficbinding_controller.go:119-147 | It alternates between Reconciling and Degraded for ever and leaves the cluster alone |
| Safety.OutsideKeepsInv | internal/controller/trafficbinding_controller.go:49-148 | Users, other controllers and other bindings within their rights keep the invariant, exact restorability included |
| Safety.PreviewGone | internal/controller/trafficbinding_preview.go:87-118 | A preview without any mark has left the cluster exactly as it found it |
| Writes.StatusWrite | internal/controller/trafficbinding_status.go:341-349 | Every allowed status write keeps the invariant and the guarantee |
| Writes.FinalizerRemoved | internal/controller/trafficbinding_controller.go:59-66 | Dropping the finalizer in Restored keeps the invariant, also when the object vanishes with it |
| Writes.ServiceWrite | internal/controller/trafficbinding_restore.go:35-40 | Claiming and releasing the snapshot's own Service keep the invariant and the guarantee, however the merge patch meets concurrent edits |
| Writes.ServiceWriteEffect | internal/controller/trafficbinding_metadata.go:39-48 | A release leaves no Service marked, whatever others edited meanwhile |
| Writes.SliceWrite | internal/controller/trafficbinding_relay.go:20-72 | Putting the relay slice, or a saved slice back, keeps the invariant |
| Writes.ManagedSliceDelete | internal/controller/trafficbinding_restore.go:85-100 | Deleting the managed slice keeps the invariant |
| Writes.EndpointsWrite | internal/controller/trafficbinding_restore.go:139-157 | Putting Endpoints back keeps the invariant |
| Kube.MergeServiceUnraced | internal/controller/trafficbinding_intercept.go:107-116 | A merge patch computed from what is stored writes exactly the intended Service |
| Kube.MergeMapKey | internal/controller/trafficbinding_restore.go:35-40 | A key the patch mentions, or any key of a map it empties, gets the intended value whatever else was edited; every other key keeps the stored one |
| Api.ApiServer.PatchService | internal/controller/trafficbinding_intercept.go:107-116 | The patch lands on what is stored at that moment, an emptied map replacing the stored one; it keeps the caller entitled, and in an exclusive run writes exactly the intended Service |
| Api.ApiServer.PatchStatus | internal/controller/trafficbinding_status.go:341-349 | After a status patch, failed or not, the stored status is the old one or the fully patched one, nothing between, and after a success the patched one; users may have edited the rest |
| Api.ApiServer.RemoveFinalizer | internal/controller/trafficbinding_controller.go:59-66 | May be called only in Restored; an object under deletion vanishes |
| Api.ApiServer.UpdateSlice | internal/controller/trafficbinding_restore.go:102-137 | Succeeds only if the slice is still the one that was read |
| StatusWriter.PersistSnapshot | internal/controller/trafficbinding_status.go:45-66 | After an error the stored binding has either all of the snapshot edit or none of it |
| StatusWriter.SetDegraded | internal/controller/trafficbinding_status.go:113-154 | Degrading from a local copy with unstored edits sends only the differences and stays coherent |
| StatusWriter.SetReady | internal/controller/trafficbinding_status.go:68-111 | Ready is recorded against the copy read at the start of the pass |
| StatusWriter.SetPaused | internal/controller/trafficbinding_status.go:202-230 | Paused, and with it the loss of the snapshot, only when nothing of the binding is left |
| StatusWriter.SetRestored | internal/controller/trafficbinding_status.go:256-300 | Restored only under deletion and only when nothing of the binding is left |
| StatusWriter.SetPending | internal/controller/trafficbinding_status.go:17-29 | Pending only when nothing of the binding is left, or with its snapshot kept when an intercept has lost its relay |
| StatusWriter.SetWorking | internal/controller/trafficbinding_status.go:156-182 | The working phases keep the snapshot |
| StatusWriter.SetFailed | internal/controller/trafficbinding_status.go:184-200 | A failed attempt keeps the phase and the snapshot and shows Degraded |
| StatusWriter.RestingIsClear | internal/controller/trafficbinding_controller.go:164-176 | A binding in a phase that may not have marks has none, so the shortcuts that skip cleanup are safe |
| Restore.RestoreService | internal/controller/trafficbinding_restore.go:17-57 | From any mixture of finished and half-done interceptions and restores, the first success leaves no mark, and in an exclusive run selector, annotations, slices and Endpoints as recorded; in every run it has since patched selector and metadata back and written every saved slice and the Endpoints, or found the Service gone; undisturbed it succeeds if and only if it is not refused (`Undoable`), and else fails for good |
| Restore.RestoreComplete | internal/controller/trafficbinding_restore.go:17-57 | With the Service back, the managed slice gone and every saved object there, nothing differs from the baseline |
| Restore.RestoredServiceIsOriginal | internal/controller/trafficbinding_metadata.go:39-48 | Releasing a claimed or an unclaimed Service gives the original one |
| Restore.RestoreRest | internal/controller/trafficbinding_restore.go:41-57 | After the Service is back, slices and Endpoints follow, in every run each of them written since |
| Restore.RestoreSlices | internal/controller/trafficbinding_restore.go:44-50 | In every run every saved slice has been written since; in an exclusive run all are back and no other slice has changed |
| Restore.RestoreSlice | internal/controller/trafficbinding_restore.go:102-137 | In every run success leaves the saved slice as saved, also when another controller created it between the read and the creation, and a slice is reported missing only if it is; in an exclusive run nothing else changes |
| Restore.RestoreEndpoints | internal/controller/trafficbinding_restore.go:139-157 | In every run success leaves the saved subsets, written since; in an exclusive run nothing else changes |
| Restore.DeleteOwnManagedSlice | internal/controller/trafficbinding_restore.go:85-100 | On success the binding has no managed slice; one it does not own is an error and is left alone; undisturbed there is no other |
| Restore.PatchBack | internal/controller/trafficbinding_restore.go:35-40 | Selector and metadata return in one patch, in every run merged into whatever is stored |
| Restore.CleanupWithoutSnapshot | internal/controller/trafficbinding_restore.go:59-83 | Without a snapshot there is nothing to undo and the cluster stays as it is; undisturbed it succeeds if and only if it is not refused (`Undoable`) |
| Intercept.CaptureService | internal/controller/trafficbinding_intercept.go:18-84 | Changes nothing; undisturbed it succeeds if and only if the Service can be captured, and fails for good unless it is missing; in an exclusive run the snapshot is a faithful copy of Service, slices and Endpoints; in every run each part was read since, from a suitable Service, a listing within the limits, and Endpoints or their absence |
| Intercept.CheckTarget | internal/controller/trafficbinding_intercept.go:28-36 | Headless, external, foreign or port-less Services are refused, all others accepted |
| Intercept.CollectSlices | internal/controller/trafficbinding_intercept.go:57-76 | All listed slices in order, or none if their endpoints exceed the limit |
| Intercept.SameTotal | internal/controller/trafficbinding_intercept.go:57-66 | The limit on endpoints does not depend on the order in which slices are listed |
| Intercept.CaptureIsFaithful | internal/controller/trafficbinding_intercept.go:52-83 | What was read piece by piece is together a faithful copy |
| Intercept.CaptureRecords | internal/controller/trafficbinding_intercept.go:37-76 | A capture records the managed slice of a binding if and only if that slice is there and labelled with the Service at that moment |
| Intercept.ReconcileIntercept | internal/controller/trafficbinding_intercept.go:86-138 | While nobody else writes, the cluster is afterwards exactly the one found, redirected, and in an exclusive run the original one; in every run success means that since the call the captured Service was read and found claimed or claimed by a patch, and after that every listed slice and the Endpoints were absent and the relay slice in place (`InterceptedSince`); undisturbed it succeeds if and only if Service and slice name can be used (`Relayable`); refused for the Service it changes nothing, refused for the slice name it has cut the Service off; a redirected cluster sees no write |
| Intercept.Redirect | internal/controller/trafficbinding_intercept.go:107-138 | The claim on the Service read and what follows it, in every run in this order |
| Intercept.RelayTraffic | internal/controller/trafficbinding_intercept.go:118-138 | After the claim: the Service's slices and Endpoints go and the relay slice comes; in every run success means that they have been absent and it has been there since |
| Intercept.CutTraffic | internal/controller/trafficbinding_intercept.go:118-137 | Exactly the Service's other slices and its Endpoints are gone; in every run each has been absent since; where there is nothing to cut nothing is written |
| Intercept.RemoveSlices | internal/controller/trafficbinding_intercept.go:118-133 | Exactly the Service's slices other than the owned managed one are gone; in every run those listed have been absent since |
| Intercept.ClaimService | internal/controller/trafficbinding_intercept.go:107-116 | The Service carries the claim and an empty selector, in every run by a patch merged into what is stored; an already claimed one is not patched |
| Intercept.RedirectedFromAnywhere | internal/controller/trafficbinding_intercept.go:86-138 | Redirecting a half-done state gives the same cluster as redirecting the untouched one |
| Intercept.RedirectedIsPartlyHijacked | internal/controller/trafficbinding_relay.go:74-109 | The redirected Service has an empty selector, no Endpoints and exactly one slice, the managed one, which sends to the relay (`SendsToRelay`) |
| Intercept.RelaySliceSends | internal/controller/trafficbinding_relay.go:74-109 | Whatever the Service: the relay slice has one endpoint, ready, with the relay's address, of IPv6 exactly if the relay is; and for every mapping, in order, the relay port with the mapping's transport, under the name of the Service port of that number and transport |
| Intercept.BuildRelaySlice | internal/controller/trafficbinding_relay.go:74-109 | The slice built step by step is that one |
| Intercept.RedirectTwice | internal/controller/trafficbinding_intercept.go:86-138 | Whatever the cluster, a second interception changes nothing |
| Intercept.ReconcileRelaySlice | internal/controller/trafficbinding_relay.go:20-72 | Creates, converges or leaves the managed slice, in every run: it has been as desired since, or was patched to be, also when another controller created it between the read and the creation; a slice in its place is missing or not its own only where the error says so; one that is as desired is not written |
| Intercept.DesiredRelaySliceIsOwn | internal/controller/trafficbinding_relay.go:74-109 | The desired slice is marked, controlled and labelled as the binding's own |
| PreviewService.ReconcilePreview | internal/controller/trafficbinding_preview.go:19-66 | While nobody else writes, the preview Service has the desired form afterwards and its slice relays; in every run the Service returned was so, or was patched to be, and the slice was relaying since; undisturbed it succeeds if and only if both names are free or its own, and fails for good; a settled preview sees no write |
| PreviewService.EnsurePreviewService | internal/controller/trafficbinding_preview.go:19-56 | The Service exists, is controlled by the binding and has the desired form, in every run at some moment since or by a patch, or the name is taken |
| PreviewService.CreatePreviewService | internal/controller/trafficbinding_preview.go:26-36 | Creating never takes over an existing Service: a taken name is a permanent error, and there is no other |
| PreviewService.SettledSends | internal/controller/trafficbinding_preview.go:68-86 | A settled preview selects no Pods, offers every mapping's target port in order with its transport and the relay port behind it, and its slice sends to the relay (`Intercept.SendsToRelay`) |
| PreviewService.BuildPorts | internal/controller/trafficbinding_preview.go:68-80 | The loop over the mappings gives those ports |
| PreviewService.DecimalReads | internal/controller/trafficbinding_target.go:76-81 | The number in the name of an unnamed port is that of its port, so different ports get different names |
| PreviewService.OwnPortsResolve | internal/controller/trafficbinding_preview.go:68-86 | Every mapping finds its port on the Service built from the mappings |
| PreviewService.PreviewFormTwice | internal/controller/trafficbinding_preview.go:40-55 | Bringing a Service into the preview form twice changes nothing more |
| PreviewService.DeletePreview | internal/controller/trafficbinding_preview.go:87-118 | On success nothing of the preview is left; one failure does not keep it from trying the other object |
| Validation.ValidateBinding | internal/controller/trafficbinding_validation.go:31-51 | Accepts exactly the valid specs |
| Validation.ValidateBindingMode | internal/controller/trafficbinding_validation.go:124-164 | Accepts exactly the specs whose target, preview, relay and relay ports fit the mode |
| Validation.MatchUuid | internal/controller/trafficbinding_validation.go:15 | The match of the pattern group by group accepts exactly the UUIDs of versions 1 to 5 |
| Validation.DnsNames | internal/controller/trafficbinding_validation.go:106-112 | Labels have 1 to 63 characters, subdomains 1 to 253, with hyphens inside a label only and dots between labels only |
| Validation.SubdomainSplits | internal/controller/trafficbinding_validation.go:166-177 | On both sides of a dot in a subdomain there is a subdomain |
| Validation.Utf8Bounds | internal/controller/trafficbinding_validation.go:70-72 | The length in bytes is the number of characters exactly for ASCII, and up to two, three and four times that for the longer encodings |
| Validation.SubdomainOfLabels | internal/controller/trafficbinding_validation.go:166-177 | A label is a subdomain, and so is a label with a dot and a subdomain after it, within the length |
| Validation.ValidateBindingIdentity | internal/controller/trafficbinding_validation.go:63-80 | Accepts exactly identities of two UUIDs in either case, a non-blank identifier of at most 256 bytes and a positive generation, with one to 64 ports |
| Validation.ValidateBindingPorts | internal/controller/trafficbinding_validation.go:82-122 | Accepts exactly the port lists whose entries are valid and pairwise free of clashes in name or target |
| Validation.ValidatedIsRelayReady | internal/controller/trafficbinding_validation.go:145-161 | What validation and the wait for a relay buy: no missing relay or relay port is dereferenced later |
| Validation.FindPort | internal/controller/trafficbinding_target.go:45-58 | Finds a port exactly if one has the mapping's number and is UDP exactly if the mapping is, and then the first |
| Validation.FindServicePort | internal/controller/trafficbinding_target.go:45-58 | The loop returns the first match |
| Validation.ResolveServicePorts | internal/controller/trafficbinding_target.go:60-74 | Resolves all mappings in order, or fails if one has no port |
| Updater.Supervisor.Update | internal/supervisor/updater_darwin.go:74-145 | OK: the manifest was valid, the worker asked first had no sessions or the update was forced, the payload of announced size, digest, header, account of itself and, for a release, signature is installed, started and was seen running and ready with version, protocol and digest as announced, no journal is left, and lock, checks, syncs, mode, stop and start of the worker were seen to in this order (`Effort`). RolledBack: the worker from before is installed, started and was seen ready. Never both. What is refused before touches neither worker, previous nor journal; without failures exactly an admitted, readable and trusted payload is staged. Every state passed through is one of the crash states. Without failures a staged update of an installed worker is completed or rolled back. A staged update goes through `Unjournaled`, a completed or rolled back one through `SetAside`, one rolled back without failures through `PutBack` |
| Updater.Supervisor.Prepare | internal/supervisor/updater_darwin.go:80-112 | Manifest, lock, status and payload in this order; without failures it succeeds exactly if all of them do |
| Updater.Supervisor.CreateStaged | internal/supervisor/updater_darwin.go:195-206 | The staged file is created anew and empty; one left behind is removed first |
| Updater.ValidateManifest | internal/supervisor/updater_darwin.go:147-171 | Accepts exactly manifests of the schema, channel and protocol, with a request ID, a version and a size of 1 to 128 MiB |
| Updater.Supervisor.Admit | internal/supervisor/updater_darwin.go:98-107 | One status query: a worker that answers is updated exactly if it has no sessions or the update is forced; one that does not answer must be installed |
| Updater.Supervisor.Install | internal/supervisor/updater_darwin.go:109-144 | The same for the part after staging |
| Updater.Supervisor.Stage | internal/supervisor/updater_darwin.go:195-256 | The staged file is exactly a payload that matches the manifest, or nothing but that file was touched |
| Updater.Supervisor.Receive | internal/supervisor/updater_darwin.go:195-236 | A shorter payload, an extra byte and a read error are refused |
| Updater.Supervisor.VerifyPayload | internal/supervisor/updater_darwin.go:237-256 | Passes exactly payloads with the digest, an executable header, the announced account of themselves and, for a release, a valid signature, unless a check cannot be made |
| Updater.Supervisor.WriteJournal | internal/supervisor/updater_darwin.go:340-360 | The journal is the old one or the new one, never part of one, also when the sync fails after the rename |
| Updater.Supervisor.Activate | internal/supervisor/updater_lifecycle_darwin.go:49-90 | Swaps or rolls back; every state in between is a crash state |
| Updater.Supervisor.SetWorkerAside | internal/supervisor/updater_lifecycle_darwin.go:54-64 | The old worker is in one of its two places after every step |
| Updater.Supervisor.Swap | internal/supervisor/updater_lifecycle_darwin.go:65-90 | Success means the staged worker is in place, executable, synced, started and was seen ready as announced |
| Updater.Supervisor.RollBack | internal/supervisor/updater_lifecycle_darwin.go:123-144 | Success means the previous worker is in place, started and was seen ready after that; without a previous worker nothing is touched; without failures it succeeds exactly if there is one |
| Updater.Supervisor.WaitReady | internal/supervisor/updater_lifecycle_darwin.go:92-121 | Success exactly on a status that shows the worker running and ready with version, protocol and digest of the manifest |
| Updater.Supervisor.WaitAnyReady | internal/supervisor/updater_lifecycle_darwin.go:146-167 | Success exactly on a status that shows the worker running and ready |
| Updater.Supervisor.Recover | internal/supervisor/updater_lifecycle_darwin.go:16-47 | From every crash state all states passed through keep the old worker; without failures the outcome is exactly that of `Recovered` for each kind of crash state, the two windows included. For any other files with a journal, whoever wrote it, the outcome is that of `Resumed`: after a swap the worker stays if and only if the first status is the one the journal announces |
| Updater.Supervisor.ReadJournal | internal/supervisor/updater_darwin.go:362-384 | Reads exactly the journals that decode, with a request ID and a version |
| Updater.Supervisor.RecoverSwap | internal/supervisor/updater_lifecycle_darwin.go:33-47 | An interrupted swap: a worker that came up as announced stays, else the previous one returns |
| Updater.Supervisor.RollBackOnRequest | internal/supervisor/updater_lifecycle_darwin.go:169-186 | OK exactly if rolled back; the previous worker is installed and was seen ready |
| UpdateRuns.OldWorkerIsNeverLost | internal/supervisor/updater_lifecycle_darwin.go:49-144 | After every step of an update the complete old worker is in one of its two places, and what is installed is the old worker or a payload that matches the manifest |
| UpdateRuns.UpdateStopRecover | internal/supervisor/updater_lifecycle_darwin.go:16-186 | An update of an installed worker stopped anywhere, a recovery without failures and where needed a rollback on request: outside `PutBack` recovery returns without error and leaves no journal, outside `SetAside` a worker is installed; a staged file is left if and only if there was one and no journal. In `SetAside` the rollback reinstates the old worker; in `PutBack` the old worker is in place though recovery reports an error unless both binaries are the same. Stopped before its own first journal over one an earlier update left, the recovery goes by that journal |
| UpdateRuns.StaleJournalDisplaces | internal/supervisor/updater_lifecycle_darwin.go:33-47 | At an input for every worker and previous worker: with a journal of a swap to another digest the recovery installs the previous worker |
| UpdateRuns.WindowsAreCrashStates | internal/supervisor/updater_darwin.go:111-144 | For every worker and matching payload the three windows are states an update can be stopped in |
| Routes.CompactRoutes | internal/singbox/routes.go:53-81 | The routes are the blocks that lie within no other, each once, in the order of their text, whatever order the set was iterated in |
| Routes.Lossless | internal/singbox/routes.go:53-81 | Compaction loses no address and adds none |
| Routes.Irredundant | internal/singbox/routes.go:53-81 | No address is in two compacted routes |
| Routes.CompactedIsCanonical | internal/singbox/routes.go:53-81 | The result does not depend on iteration order, and compacting it again returns it |
| Routes.Root | internal/singbox/routes.go:65-75 | Every block lies within an outermost one |
| Routes.ScanDecides | internal/singbox/routes.go:67-78 | Scanning in order of size, a block is covered by a kept one exactly when it is not outermost |
| Routes.ClusterRoutes | internal/singbox/routes.go:12-51 | Succeeds exactly if every relevant entry parses and something is to be routed; then it is the compacted form of all of it |
| Routes.CoverageIsWhatWasFound | internal/singbox/routes.go:12-51 | An address is routed exactly if it is in a Pod range, a Pod, in a Service range, or, only if there are none, a Service address |
| Prefixes.ShorterSeesLess | internal/singbox/routes.go:67-71 | A shorter prefix contains all addresses of a longer one or none |
| Prefixes.MaskedKeepsAddresses | internal/singbox/routes.go:19 | Masking changes no membership and is idempotent |
| Prefixes.BlockIsARun | internal/singbox/routes.go:19 | A block is the run of as many addresses as its size that begins at its network |
| Prefixes.BlockSizes | internal/singbox/routes.go:67-71 | A block one bit shorter is twice as large, one of all bits a single address, one of 24 bits of an IPv4 address 256 |
| Prefixes.AddressesAre | internal/singbox/routes.go:67-71 | Addresses are the numbers of 32 and of 128 bits |
| Prefixes.NestedOrDisjoint | internal/singbox/routes.go:67-71 | Two blocks are nested or disjoint |
| Prefixes.DivideTwice | internal/singbox/routes.go:67-71 | The quotient by a product is the quotient of the quotient: the arithmetic behind nesting |
| Diagnostics.DiscoveryRoutes | internal/networkdiag/diagnostics.go:68-102 | All that parses, masked, each once, in the order of its text |
| Diagnostics.AnalyzeRouteConflicts | internal/networkdiag/diagnostics.go:104-149 | Exactly one issue for each target, route and interface with the route nested in the target, in order |
| Diagnostics.GateAgreesWithTunnel | internal/networkdiag/diagnostics.go:68-149 | For input that parses, a host route conflicts with a discovered target exactly if one lies within a compacted route |
| Diagnostics.Inspect | internal/networkdiag/diagnostics.go:47-66 | Where everything parses, there is a warning if and only if a host route lies within a route the tunnel installs or the DNS port is taken; the conflicts reported are exactly those between what was found and the host; routes that cannot be read are reported and stop nothing |
| Gateway.Server.OpenControl | internal/gateway/gateway.go:319-334 | Accepted exactly if all live controls of the session have that network |
| Gateway.Server.RemoveControl | internal/gateway/gateway.go:336-346 | The ended control is no longer live; the accounts stay right |
| Gateway.Server.AuthorizedNetwork | internal/gateway/traffic.go:148-165 | Traffic is let through exactly for a session with a live control stream for that hash and namespace |
| Gateway.OneMore | internal/gateway/gateway.go:319-330 | Counting one more control keeps every count equal to the number of live controls, with the same keys in both maps |
| Gateway.OneLess | internal/gateway/gateway.go:336-346 | So does counting one less, with both entries gone exactly with the last control |
| Gateway.Server.TrackConnection | internal/gateway/gateway.go:74-83 | A draining gateway takes no connection; one that is tracked already gets a second wait group entry, which nobody returns |
| Gateway.Server.UntrackConnection | internal/gateway/gateway.go:85-94 | Taken off the set once, its wait group entry returned later |
| Gateway.Server.Drained | internal/gateway/gateway.go:116-130 | A drain that ends well finds no connection; with a connection tracked twice none ends well |
| Gateway.DrainedForGood | internal/gateway/gateway.go:98-130 | From then on there never is one |
| SessionRuns.RunsKeepInv | internal/helperd/session_start.go:26-175 | Every state of every interleaving satisfies the invariant, which also says what the active request knows of the session it works on: its ID, for a start its settings |
| SessionRuns.StepKeepsInv | internal/helperd/session_lifecycle.go:13-110 | Each step of each thread keeps it |
| SessionRuns.OneSessionAtMost | internal/helperd/session_start.go:52-75 | There is never a second registered session |
| SessionRuns.NothingOutlivesItsEntry | internal/helperd/session_start.go:143-173 | Once the entry of a session is gone, so are its DNS, routes and files, but for those whose removal has failed |
| SessionRuns.WaiterSparesTheOthers | internal/helperd/session_start.go:151-170 | The waiter of an old session never undoes DNS, routes or files of a registered one |
| SessionRuns.StopMeansGone | internal/helperd/session_lifecycle.go:62-90 | A stop that reports success leaves no session of that name, and of its DNS, routes and files only those whose removal has failed |
| SessionRuns.NeverStillStarting | internal/helperd/session_lifecycle.go:71-73 | The answer that a session is still starting is never given |
| SessionAnswers.RunsKeepLeftOver | internal/helperd/session_start.go:61-76 | In every state of every interleaving no registered session has escaped a request that stops all of them: it is still to be stopped or its stop has run out of time; and a registered session has its files and routes from their creation until its waiter takes them back |
| SessionAnswers.StepKeepsLeftOver | internal/helperd/session_lifecycle.go:92-110 | Each step of each thread keeps the first part |
| SessionAnswers.StepKeepsProvided | internal/helperd/session_start.go:84-170 | Each step of each thread keeps the second part |
| SessionAnswers.StartSucceeds | internal/helperd/session_start.go:52-60 | The step that answers a start with success is taken only where its ID is registered at that moment, with nothing changed, or from a session with that ID and the settings asked for that has been published |
| SessionAnswers.StartFails | internal/helperd/session_start.go:26-90 | The step that answers with a failure is taken only when the request was refused, every leftover session ran out of time, the building failed and nothing is registered, or the process has ended |
| SessionAnswers.StartReplaces | internal/helperd/session_start.go:61-76 | A start comes to build its session, with the ID and settings asked for, only once no session is registered |
| SessionAnswers.StartOverEnding | internal/helperd/session_start.go:56-60 | A run into the success of a start whose session has ended |
| SessionAnswers.NothingAnswersThere | internal/helperd/session_start.go:56-60 | There DNS, routes and files are gone, the settings were other ones, and two steps later so is the entry |
| SessionAnswers.StopAnswers | internal/helperd/session_lifecycle.go:62-90 | A single stop succeeds only with the session gone and fails only by running out of time |
| SessionAnswers.StopAllAnswers | internal/helperd/session_lifecycle.go:92-110 | Stopping all reports success, and every session still registered has run out of time |
| SessionAnswers.LateMeans | internal/helperd/session_lifecycle.go:74-90 | A session has run out of time only if its process was told to stop and was waited for in vain |
| SessionAnswers.UpdateSucceeds | internal/helperd/session_lifecycle.go:13-54 | An update of the DNS succeeds only with its settings recorded for the session of its ID, and installed |
| SessionAnswers.SettingsChangeOnlyByUpdates | internal/helperd/session_lifecycle.go:39-54 | Recorded settings change by nothing but an update that installs them and goes on to report success, and the ID of a session never |
| SessionAnswers.LogsSucceed | internal/helperd/session_logs.go:12-49 | Logs are handed out of the session asked for alone, while its lock is held |
| SessionAnswers.RefusedAtOnce | internal/helperd/session_start.go:26-50 | What is refused when it is taken up is answered so with nothing done: a start of a closing helper or an invalid one, invalid settings, an invalid offset; a stop never is |
| SessionAnswers.LookupFails | internal/helperd/session_lifecycle.go:13-36 | An update or a log request fails only if it was refused, if there is no session of that ID, or after letting go of it |
| SessionAnswers.FailuresAreOnRecord | internal/helperd/session_start.go:151-168 | What a waiter cannot take back stays, and is on record |
| SessionAnswers.EntriesAreGuarded | internal/helperd/session_start.go:56-82 | The entries change only at the hands of whoever holds `mu` |
| SessionAnswers.NobodyPeeks | internal/helperd/session_start.go:56-82 | What a request does without holding `mu` does not depend on the entries |
| SessionSettings.RunsKeepInEffect | internal/helperd/session_lifecycle.go:13-54 | In every reachable state the settings recorded for the session in service are in effect if and only if no update has them half changed and none has failed to put them back after changing something; complete settings of a session are always its recorded ones; an update that reports success has recorded and installed what was asked for |
| SessionSettings.StepKeepsInEffect | internal/helperd/session_lifecycle.go:39-52 | Each step of each thread keeps this |
| SessionSettings.UnsettledBy | internal/helperd/session_lifecycle.go:39-44 | Settings become unsettled by nothing but a failure to put them back after a change, and are settled by nothing but the next successful installation |
| SessionSettings.UnsettledIsReachable | internal/helperd/session_lifecycle.go:39-44 | A run into a session that goes on while its recorded settings are not in effect |
| SessionDeadlock.NoOtherDeadlock | internal/helperd/session_lifecycle.go:13-110 | As long as no log reader and exit waiter wait for each other, some thread at work can go on |
| SessionDeadlock.OnlyReadersDeadlock | internal/helperd/session_logs.go:12-27 | With any request but one for logs there is no such wait |
| SessionDeadlock.DeadlockIsForever | internal/helperd/session_logs.go:12-27 | That wait never ends |
| SessionDeadlock.DeadlockIsReachable | internal/helperd/session_logs.go:18-27 | A run of twenty-four steps leads into it |
| Install.InstallFromCLI | internal/helperinstall/install_common.go:20-106 | Installed: all four files hold what they should, replaced binaries with mode 755, new secrets with mode 600, and the service was stopped, started and has answered. Rolled back or refused: all four are as before in existence, content and mode; after a rollback the service of before was started again or the new one disabled. After success or a clean rollback no snapshot is left but one that could not be removed. After a failed rollback every file is in place or its snapshot is. Without failures it is Installed if and only if both sources can be read, and no rollback fails |
| Install.BeginRollback | internal/helperinstall/install_rollback.go:15-39 | All four are recorded, or an error; none of them is touched |
| Install.Restore | internal/helperinstall/install_rollback.go:48-77 | Success means all four are as before; every file on which no operation failed is, whatever becomes of the others; failure loses none |
| Install.Replace | internal/helperinstall/install_common.go:72-105 | Stop, binaries, secrets, start and answer in this order; without failures it succeeds exactly if what is needed can be read |
| Install.Commit | internal/helperinstall/install_rollback.go:41-46 | The snapshots go, the files stay |
| Install.SnapshotFile | internal/helperinstall/file_rollback.go:15-37 | The snapshot holds content and mode, and its absence means the file was absent |
| Install.RestoreFile | internal/helperinstall/file_rollback.go:39-50 | The file is as it was, or its content is still in one of the two places |
| Install.DiscardFile | internal/helperinstall/file_rollback.go:52-55 | A snapshot stays only if it could not be removed |
| Install.Disk.Copy | internal/helperinstall/copy.go:12-63 | The destination is untouched or complete, even if the disk stored other bytes than were written |
| Install.NeedsUpdate | internal/helperinstall/install_common.go:159-183 | No update is needed only for the same file or the same content; without failures exactly then |
| TomlSplice.FindRanges | internal/mcp/install.go:207-231 | Cutting the merged ranges leaves the preamble and exactly the blocks whose key lacks the prefix |
| TomlSplice.UnderMeans | internal/mcp/install.go:216 | With a table its subtables go, but neither its parent nor another child of that |
| TomlSplice.RemoveTable | internal/mcp/install.go:204-241 | The result is those bytes in their order, or an error for a file that does not parse |
| TomlSplice.CopyAround | internal/mcp/install.go:232-241 | Copying around the ranges is cutting them |
| TomlSplice.NothingToRemove | internal/mcp/install.go:229-231 | A file without such a table stays as it is |
| TomlSplice.RemovalIsIdempotent | internal/mcp/install.go:204-241 | A second removal changes nothing |

## Left out

Assumptions about the other parties of the operator:

- An intercept that waits in Pending with a snapshot is not asked to pause, and not while a pass is under way that finds it without a relay (`Boundaries.PauseIsSafeWhen`, `Boundaries.FallBackIsSafeWhen`); the relay of a preview is withdrawn only at rest, in a pause or in a deletion (`Boundaries.WithdrawnThenPaused`).
- Nobody else edits the binding's finalizer, status or workload fields, forges its UID annotation, copies a Service with it (`Boundaries.CleanupLeavesMarksWhen`) or forges its managed slice.
- Reconciles of all bindings are serialized: during a reconcile no other binding claims or releases a Service, and no Service is created or replaced (`Boundaries.ClaimLandsWellWhen`, `Boundaries.ReleaseLandsWellWhen`).
- Runs.OtherBindingsAreOutsiders: excludes another binding whose snapshot holds this binding's managed slice (`Intercept.CaptureRecords` says when it does, `Boundaries.ReturnOfTheSliceIsSafeWhen` when that is harmless).
- Runs.Run: that a slice was labelled is known of the listing; one relabelled or replaced between the listing and its deletion by name is deleted all the same.
- Runs.RestedIsOriginal: concerns runs in which nobody else writes what `Shared` holds. That may be less than the namespace: the operator reads and writes no Service but the binding's own, no Endpoints but its, and no slices but those labelled with it, saved in the snapshot or managed. Endpoints are their subsets only.
- Runs.SettleExactly: says nothing about port forwards to Pods.
- ManyBindings.RunsKeepAllSafe: takes what a pass issues from a safe world for granted; that is what `Runs.Run` proves for each binding, with reconciles serialized.

What the operator does that the model does not:

- Controller.ValidateTarget: says nothing about Pod targets, because Pods exist or not by chance.
- Requeue delays, events, log messages, condition reasons, messages and times have no effect on state here.
- Validation.ValidateBinding: whether a relay address is an IP literal is a flag of the spec.
- The digest in label and slice name is any injective function.
- An absent selector and an empty one are the same map, so a patch that only turns one into the other is not sent.
- The generation an update returns is not read back into the local copy.
- The informer cache: reads are of what is stored.

The updater:

- Updater.Supervisor.Update: says what a rollback reinstalls for a missing worker too, but the claims about crash states need an installed worker; a previous worker that is the only copy may be removed by the next update.
- `Restart` and the status reported in a response. A payload's account of itself and its signature are given functions of it. Modes and syncs have no effect on the files, but the order in which they succeed is on record. Existence checks answer truthfully; time is a bound on the number of polls.
- Two updates at once: the lock is one operation that may fail.

Routes, gateway, helper:

- Parsing and printing of addresses: entries are values or failures, and the text of a prefix is an injective position in the order of strings.
- Reading the host's routes and trying its DNS port: their outcome is given.
- Gateway transports, traffic and the forward runtime; a control refused by the runtime never reaches the accounts. Closing sockets at a drain deadline changes no account.
- Link DNS of a session's interface, log contents and the serving loop; RPC dispatch. Time limits of a stop may run out at any time.
- Directories at the paths of an installation, service managers (their answers are arbitrary, what succeeded is on record) and a crash in the middle of an installation.
- Install.NeedsUpdate: an installed file that cannot be hashed is replaced; that it is not refused instead is not stated, because reads that fail are not told apart.
- TomlSplice.RemovalIsIdempotent: the headers of the shortened file are those that stay, at their new places; that the parser finds them is not shown.
- The TOML parser: a list of headers in file order, or an error. The JSON clients and the block that is appended afterwards.
- User interfaces, MCP tools, WebSocket and Noise transports, OAuth, keyring, launchd, systemd, sing-box rules and the component store.
