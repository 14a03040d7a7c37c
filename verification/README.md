# Model of the PMS release tools, stay arrangements and concurrent protocols

A Dafny model of the parts of this repository whose correctness spans several steps, functions or
transactions, with proofs. `dafny verify dfyconfig.toml` checks the whole project.

| files | subject |
|---|---|
| `Releases`, `Images`, `Deployment` | the images on the host, the journalled deployment entry point of the server, and the AI configuration change that shares its journal |
| `DeploymentRuns`, `DeploymentCases` | any commands in a row under any schedule, and runs that show what can go wrong |
| `TextOrder`, `Retention`, `RetentionRun`, `RetentionAgain` | release retention in the object store, once and again and again |
| `Survival`, `StoreAnchors` | sessions: a command, retention and image cleanup, what survives all of them, and what it means that bundles come from the store |
| `ImmutableStore` | immutable writes to the object store and the deployment marker |
| `Arrangement`, `Snapshots`, `Reschedule`, `ArrangementHistory` | which unit a stay occupies on which night, and the history checks of an order view |
| `Corrections` | batch correction of completed stays |
| `RowLocks`, `CommandAuthorization` | row locking by concurrent command authorizations |
| `Payments`, `PaymentRuns` | matching provider bills to recorded payments under row locks |
| `EventFeed` | the paged event feed with cursors, publication and pruning |
| `ReadPoller` | the read poller of the web client |

How the model is built:

- Every durable effect of a deployment (journal write, container switch, state replace, file replace,
  journal unlink) is one step. At each step a schedule may kill the process, before or after the effect,
  or raise, with or without the effect; a switch may leave the old container, the new one or none. A
  postcondition of a method therefore speaks of every point at which it can stop.
- Deletions in the store, tag removals and container references are likewise decided by a schedule that is
  a parameter, so each theorem holds for all of them.
- SHA-256 is taken to be injective: a checksum is represented by what it was taken of. JSON is taken as
  already parsed. Dates are day numbers, instants are integers.
- Concurrent transactions are state machines over their statements; the theorems hold for every
  interleaving.

## Findings

Some properties one would expect do not hold as such; the model keeps the code's behaviour and proves when
they do.

- scripts/release/ai_config.py:149-167: a configuration change can leave a machine that no command can bring
  back. It happens exactly when every effect up to the unlinked journal passes, an exception (a signal)
  arrives before `configure` has left its `try`, both files are written again, and the restart that follows
  leaves no container: `Deployment.Deployer.Configure` states this condition on the schedule
  (`Deployment.StrandedBy`) in both directions, `DeploymentRuns.Drive` for whole runs, and
  `DeploymentCases.StrandedRun` is such a run.
- scripts/release/server.py:364-368 and scripts/release/server.py:105-111: loading an archive moves the tag of
  its version and revision (scripts/release/common.py:118), and a release is started by its tag. A recorded
  release stays startable exactly when no deployment loads another image for its version and revision
  (`Survival.SessionKeepsStartable`, `DeploymentRuns.StepKeepsStartable`); over any run without such a load
  everything the machine may have to start can be started (`Survival.ServeAll`). Otherwise a rollback, the
  failure branch of a promotion and recovery cannot succeed; `DeploymentCases.RecordedReleaseLosesTag` is such
  a run. It needs a bundle that was replaced from outside: while bundles come from the store, where uploads
  replace nothing and recorded prefixes are protected, no such load can happen in any run of sessions
  (`StoreAnchors.StoreKeepsReady`). In `DeploymentCases.AdoptedImageLosesTag` an adopted image loses its only
  tag to an ordinary bundle and stays startable.
- scripts/release/server.py:492-502: a lost connection frees the deployment lock while the client may go on
  deleting from the store. Its late deletions spare a bundle for certain exactly when its own run had not
  doomed it, or nothing of it is there (`StoreAnchors.StragglerSparesExactly`); so the bundle of a release that
  is recorded only afterwards can go (`StoreAnchors.StragglerHitsRecord`). The runs of sessions above assume
  that a client is done when its session ends.
- scripts/release/orchestrate.py:380-387: a second retention run can delete a success that the first one kept,
  when it sees a prefix that the first one could not read or trust. For equal protection and keep, this is
  possible exactly when keep is positive and there is such a prefix
  (`RetentionAgain.LosesExactlyWhatWasUnseen`); it never deletes more of them than there are newly seen
  releases (`Retention.SecondRunLoss`); `RetentionAgain.TransientReadLosesRelease` is the smallest case.
- packages/db/src/wecom-sync.ts:30-41: the amount of a matched payment can come to differ from its bill's. When
  the match is made, by a confirmation or by a link, it never does; later it does exactly when the last
  synchronization of the bill since then set another amount, and the bill is then under review
  (`PaymentRuns.MatchOrigin`, `PaymentRuns.EveryMatchIsRight`; a run: `PaymentRuns.AmountChangesAfterMatch`).
- packages/db/src/external-payments.ts:108-126: the lock before the fresh read of a bill protects nothing when
  the bill arrives between the two. Others can still make the match fail exactly when the lock had found no
  bill (`PaymentRuns.RefusableExactlyWhenUnlocked`); `PaymentRuns.LateBillIsJudgedTwice` is a run in which two
  transactions judge such a bill fit.
- apps/web/src/orderViewValidation.ts:337-349: an extension whose first new night keeps the last unit is
  accepted whatever its later nights are: `Arrangement.ExtensionDecidesNights` states the exact meaning,
  `Arrangement.ScatteredTailIsAccepted` is such an extension. The refusal says that an extension must keep the
  original arrangement; the code also accepts one that moves arranged nights, from one night on into one unit.
  `Arrangement.ExtensionKeepsOldNights` states when which is accepted, `Arrangement.ExtensionMovesArrangedNight`
  is such an extension.

## Model

| member | source | states |
|---|---|---|
| Deployment.Deployer.SwitchOver | scripts/release/server.py:374-379 | the guarded part of a promotion keeps the invariant at every stop; success means the target is recorded, runs and passed its health gate; which schedules kill it or make it raise is stated exactly for a kill and for each failing effect |
| Deployment.Deployer.Restore | scripts/release/server.py:382-386 | the failure branch keeps the invariant at every stop; the journal goes only when the old record and the old container are back, and without further trouble they are whenever the old release can be started |
| Deployment.Deployer.Promote | scripts/release/server.py:370-395 | a receipt is returned only when the target is committed and running, and always when no trouble comes; when the switch, the health gate or the state write of the target raises and nothing else goes wrong, the answer is "restored" and nothing has changed; "recovery required" means the journal is still there; refused exactly when the migrations differ, a rollback is not allowed by both manifests, or another image runs |
| Deployment.Deployer.SwitchOrRestore | scripts/release/server.py:374-395 | once the journal is written: each of the three failing effects of the target, with the effects before it passing and the later ones calm, ends with the old record, the old container and no journal whenever the old release can be started |
| Deployment.Deployer.RecoverPromotion | scripts/release/server.py:272-280 | recovery of a promotion never refuses a state left by a crash, does not move the record and ends with the recorded release running and no journal |
| Deployment.Deployer.WriteFiles | scripts/release/ai_config.py:118-119 | each file is one of its two versions at every stop, and both are the chosen one at the end |
| Deployment.Deployer.RestartConfigured | scripts/release/ai_config.py:121-126 | the journal is removed only after the recorded release runs and is healthy |
| Deployment.Deployer.RecoverConfiguration | scripts/release/ai_config.py:98-126 | the checks on state, files, backups and checksum never refuse a state left by a crash; without a journal both files are old or both new as the state decides |
| Deployment.Deployer.Recover | scripts/release/server.py:264-280 | recovery keeps the invariant at every stop, never refuses, never mixes the two files; it finishes only when the recorded release can be started, and then always when no further trouble comes |
| Deployment.Deployer.Adopt | scripts/release/server.py:291-305 | only a machine without record and journal is adopted, with the image that runs; the record is of the given version, revision, image and migrations, allows rollbacks, and has no predecessor |
| Deployment.Deployer.Switch | scripts/release/server.py:105-117 | a container is recreated only when the release can be started from the images at hand; otherwise nothing changes |
| Deployment.Deployer.Restart | scripts/release/server.py:375-376 | switch and health gate pass exactly when the release can be started, both effects pass, and its container is there and healthy |
| Deployment.Deployer.Commit | scripts/release/ai_config.py:161-163 | the journal is unlinked only after the new state is recorded; an exception follows it exactly when three effects pass and the next one raises |
| Deployment.Deployer.WriteAndCommit | scripts/release/ai_config.py:151-163 | without a journal the files, the record and the container are all new; it raises without a journal exactly under a late exception |
| Deployment.Deployer.ChangeOrRecover | scripts/release/ai_config.py:149-167 | the change and its recovery strand the machine exactly when a late exception is followed by a restart that leaves no container; with one raising effect, wherever it is, the journal is gone at the end and the machine settled |
| Deployment.Deployer.Reconfigure | scripts/release/ai_config.py:138-167 | the journalled configuration change keeps the invariant, except exactly under those schedules |
| Deployment.Deployer.Configure | scripts/release/ai_config.py:128-168 | a configuration change never changes the release, success means the candidate files are in place and recorded, and the machine is stranded exactly under the schedules described by StrandedBy |
| Deployment.Deployer.Deploy | scripts/release/server.py:307-368 | a receipt names the requested prefix, the checksum and the migration list that was recorded before, and is delivered with no journal and the target running; previous and rollbackFrom follow from the release before; the images change exactly when the bundle is loaded, and only for a bundle of the requested identity with the recorded migrations; a dry run, an unfinished journal and a load that does not pass change no record; without trouble a new bundle is promoted, and a return or a repeat confirmed |
| Deployment.Deployer.Install | scripts/release/server.py:330-368 | finalizing an adoption, confirming a repeat and loading and promoting keep the invariant and deliver the downloaded identity; what is recorded can be started; without trouble a new image is always promoted |
| Deployment.Deployer.Admit | scripts/release/server.py:307-314 | a request is admitted exactly when it names its own place, no journal is left, the record matches files and container, and the version does not drop |
| Deployment.Deployer.LoadAndPromote | scripts/release/server.py:362-368 | the loaded image is behind the tag, is the one promoted, and nothing is recorded before the load passes |
| Deployment.Deployer.Return | scripts/release/server.py:320-325 | the local previous release is promoted only when its tag still names its image, and otherwise nothing is touched; without trouble it always is when both manifests allow it |
| Deployment.Deployer.Confirm | scripts/release/server.py:354-361 | a repeat is answered with the record as it is, exactly when the checksum is the recorded one, the tag names the running image, and the three effects pass |
| Deployment.Deployer.Rename | scripts/release/server.py:335-353 | the adopted release takes the name of a bundle exactly when version and revision agree, migrations agreeing already, and the effects pass |
| Deployment.LoadsNewImages | scripts/release/server.py:332-365 | which bundles have to be loaded: those of another image, and under the identity of the adopted release only when the tag names another image |
| Deployment.Deployer.FinalizeAdoption | scripts/release/server.py:347-353 | the adopted container is renamed to its bundle without switch or journal, exactly when health gate, record and audit pass; previous and rollbackFrom stay |
| Deployment.Deployer.RollbackLocal | scripts/release/server.py:473-479 | a local rollback swaps current and previous and records where it came from |
| Deployment.Deployer.RecoverOperation | scripts/release/server.py:466-472 | recover succeeds with a receipt for what is recorded and running; it refuses only an unadopted or stranded machine |
| Deployment.Deployer.Standing | scripts/release/ai_config.py:128-132 | passes only for a settled, healthy machine without a journal, and always for one when no trouble comes |
| Deployment.Deployer.Maintenance | scripts/release/server.py:480-486 | maintenance changes nothing and answers only for a settled, healthy machine |
| Images.LoadKeepsStartable | scripts/release/server.py:105-111 | a load leaves a startable release startable exactly when it does not bring another image for its version and revision |
| Images.UntagKeepsStartable | scripts/release/server.py:180-185 | removing a tag leaves a release startable exactly when the tag is not its own; an adopted one needs another tag to keep its image |
| Images.ImageHost.RemoveTag | scripts/release/server.py:180-185 | a tag goes only at a moment when no container refers to its image, and with the last tag the image; a failed removal may have been carried out |
| Images.ImageHost.CleanupImages | scripts/release/server.py:165-186 | images of current and previous keep everything; only tags of the three repositories go, and only of unreferenced images; success means every tag of those that is left names an image of current or previous, with one decision for every managed image, and comes when no removal fails and no container refers to another; a referenced image does not keep the others from being removed |
| DeploymentRuns.Perform | scripts/release/server.py:459-488 | each command keeps the invariant, strands exactly when Strands says so, changes the images exactly by a load, names only releases that can be started, and succeeds when only trouble could stop it and none comes; success means what the command is for: the adopted, requested, previous or recovered release or the candidate files are recorded and running |
| DeploymentRuns.Drive | scripts/release/server.py:459-511 | any commands under any schedule: the disk after every single effect keeps the invariant or is stranded; between commands the invariant holds unless an earlier command stranded the machine, which then stays as it is; what the machine may have to start can be started unless a load took its tag; recovery without further trouble finishes |
| DeploymentRuns.EveryMomentIsSafe | scripts/release/server.py:264-395 | at every moment of every run: without a journal the recorded image runs, the files match the record and rollbackFrom is null or previous; with one the state is the old or the target one; exactly unless an earlier command stranded the machine |
| DeploymentRuns.StepKeepsStartable | scripts/release/server.py:362-368 | one command leaves a release startable exactly when it does not load another image for its version and revision |
| DeploymentRuns.EveryMomentIsReady | scripts/release/server.py:307-395 | over any run, with crashes anywhere, everything the record or the journal names can be started, as long as no load clashes with it |
| DeploymentRuns.RecoveryRestores | scripts/release/server.py:466-472 | in such a run recovery without further trouble always finishes, with the recorded image running and no journal |
| DeploymentRuns.MigrationsNeverChange | scripts/release/server.py:155-162 | the migration list of the recorded release is equal at any two moments of a run |
| DeploymentRuns.NamedReleasesShareMigrations | scripts/release/server.py:155-162 | the predecessor, the release rolled back from and the target of an unfinished promotion need the migrations that every earlier moment recorded |
| DeploymentRuns.VersionDropsOnlyInRollback | scripts/release/server.py:314-353 | when the version is lower later in a run, there was a rollback in between, between two releases that both say same-migrations-only and need the same migrations |
| Releases.VersionOrder | scripts/release/server.py:314-314 | versions are totally ordered by major, then minor, then patch |
| DeploymentCases.StrandedRun | scripts/release/ai_config.py:149-167 | a run of an adoption and a configuration change that ends stranded |
| DeploymentCases.RecordedReleaseLosesTag | scripts/release/server.py:364-368 | a run in which a bundle that was replaced from outside makes the recorded, running release impossible to start |
| DeploymentCases.AdoptedImageLosesTag | scripts/release/server.py:364-368 | a run in which the adopted previous image loses its only tag and can still be started |
| Retention.FirstOfCount | scripts/release/orchestrate.py:396-404 | exactly k entries of a finite set have fewer than k before them |
| Retention.PlannedPrecedeRetained | scripts/release/orchestrate.py:396-413 | every planned deletion precedes every retained unprotected success in time and prefix order, and was deployed no later |
| Retention.RetainedCount | scripts/release/orchestrate.py:396-413 | of n successes, p of them protected, exactly max(min(n, keep), p) are retained |
| Retention.DeletedExactlyWhenOutlived | scripts/release/orchestrate.py:396-404 | an unprotected success is deleted exactly when at least keep other successes are protected or come later |
| Retention.SuccessMeans | scripts/release/orchestrate.py:271-285 | a success has all five objects, readable, with manifest, checksum list and marker agreeing with the prefix and each other |
| Retention.PartialMeans | scripts/release/orchestrate.py:287-308 | a partial success has a marker of its prefix, lacks something, and its manifest, if there, is the one the marker names |
| Retention.ExpiredMeans | scripts/release/orchestrate.py:311-317 | an unmarked bundle expires exactly when nothing protects it, its manifest is valid or absent, and all its objects are at or before the cutoff; one that is newer or has no time keeps it |
| Retention.DoomedMeans | scripts/release/orchestrate.py:365-428 | what a run deletes: expired unmarked bundles, outlived successes, and partial ones that are expired or older than everything retained |
| Retention.ProtectedSurvive | scripts/release/orchestrate.py:354-364 | no object under a protected prefix, or one with unknown objects, is deleted |
| Retention.HalfDeletedKeepsMarker | scripts/release/orchestrate.py:320-339 | a success deleted in part keeps its marker and its time; it is never a success nor an unmarked candidate again |
| Retention.SuccessWasWhole | scripts/release/orchestrate.py:271-285 | a success of the later run is a bundle the earlier run did not touch |
| Retention.RetainedWithinKeep | scripts/release/orchestrate.py:397-404 | when an unprotected success is retained, at most keep are |
| Retention.SecondRunLoss | scripts/release/orchestrate.py:365-428 | however the first run ended, the second deletes no more of what the first kept than there are newly seen releases |
| RetentionAgain.LosesExactlyWhatWasUnseen | scripts/release/orchestrate.py:365-428 | for equal protection and keep, no store and no ending of the first run make the second delete what the first kept, exactly when keep is not positive or the second sees no prefix the first did not |
| RetentionAgain.SecondRunKeeps | scripts/release/orchestrate.py:365-428 | the half of it about one store and one kept success |
| RetentionAgain.LosingStore | scripts/release/orchestrate.py:396-404 | the other half: for every such pair of runs a store in which a kept release is deleted |
| RetentionAgain.ManyRunsKeep | scripts/release/orchestrate.py:342-438 | a kept success is left alone by any number of later runs, however each ends, when none sees a prefix the one before it did not |
| RetentionAgain.TransientReadLosesRelease | scripts/release/orchestrate.py:380-387 | the smallest store and two runs in which a read failure of the first makes the second delete a kept release |
| RetentionRun.ReleaseStore.DeleteKeys | scripts/release/orchestrate.py:320-339 | whatever deletions fail or stop, some of the objects are left and the marker goes only after all payload |
| RetentionRun.ReleaseStore.Survey | scripts/release/orchestrate.py:353-394 | successes, partial successes and expired candidates are exactly those of the listing, deletions on the way notwithstanding |
| RetentionRun.ReleaseStore.DiscardAll | scripts/release/orchestrate.py:405-412 | only listed bundles change, into remnants, and those reported deleted are gone |
| RetentionRun.ReleaseStore.RetentionPlan | scripts/release/orchestrate.py:342-438 | however it ends, only doomed bundles changed and each is a remnant, and an unmarked bundle with an object newer than the cutoff or without time loses nothing; when it ends by itself it has tried every doomed one and reports truly; when no request fails all of them are gone, among them every unmarked one that nothing keeps; a dry run changes nothing |
| RetentionRun.Decide | scripts/release/orchestrate.py:396-427 | the loops decide exactly the planned, retried and kept prefixes |
| RetentionRun.PlanSuccesses | scripts/release/orchestrate.py:396-414 | the loop with a shrinking excess plans exactly the first unprotected successes, and finds the oldest kept |
| RetentionRun.PlanDeletions | scripts/release/orchestrate.py:397-404 | one pass over the sorted successes marks the excess oldest unprotected ones |
| RetentionRun.Sort | scripts/release/orchestrate.py:396-396 | ascending by time and prefix, with the same elements |
| TextOrder.FirstDifferenceDecides | scripts/release/orchestrate.py:396-396 | prefixes are ordered by their first difference, and a string before its continuations |
| RetentionRun.OldestKept | scripts/release/orchestrate.py:413-414 | the earliest time among what is kept, if anything is |
| RetentionRun.DoomedAre | scripts/release/orchestrate.py:365-428 | expired candidates, planned successes and retried partial ones are all that a run deletes, and no prefix is two of them |
| RetentionRun.KeptAre | scripts/release/orchestrate.py:359-363 | reported as kept are exactly the protected prefixes with objects and the retained successes |
| Survival.Sweep | scripts/release/orchestrate.py:651-653 | retention under a receipt deletes nothing of current, previous and rollbackFrom, and keeps at most five successes when it keeps an unprotected one; complete means everything doomed is gone, and comes when no request fails |
| Survival.Finalize | scripts/release/orchestrate.py:648-655 | retention and then cleanup leave images and bundles of the recorded releases alone wherever they stop; no image goes before retention has deleted all that it doomed, and without failing requests and references everything is cleaned up |
| Survival.Session | scripts/release/server.py:492-511 | one locked session is its command followed by a cleanup that spares what is then recorded, and no recorded bundle loses an object; a successful deployment or maintenance without failures ends complete |
| Survival.SessionKeepsStartable | scripts/release/server.py:307-368 | a release recorded after a session is as startable as before, exactly unless the request loaded another image for its version and revision |
| Survival.SessionKeepsTags | scripts/release/server.py:165-186 | the image of such a release keeps all its tags exactly unless the load moved the one tag of the request away from it |
| Survival.SessionsKeepReady | scripts/release/server.py:459-511 | over any run of sessions, whatever fails, everything the machine may have to start can be started as long as no load clashes |
| Survival.SessionsKeepTags | scripts/release/server.py:165-186 | over any stretch of sessions the image of a release that stays recorded keeps all its tags, when no request is about one of them |
| Survival.Serve | scripts/release/server.py:459-511 | any sessions in a row, with uploads between them, form such a run, and no bundle that the record or the journal names loses an object |
| Survival.ServeAll | scripts/release/server.py:459-511 | in every such run everything the machine may have to start can be started as long as no load clashes |
| StoreAnchors.StoreBundleTakesNothing | scripts/release/server.py:326-331 | a bundle fetched from the store takes no tag from a release whose manifest is still in the store |
| StoreAnchors.SessionKeepsAnchors | scripts/release/orchestrate.py:648-653 | a session leaves the manifest of every named release under its prefix |
| StoreAnchors.StoreKeepsReady | scripts/release/server.py:326-368 | over any run of sessions whose bundles come from the store everything the machine may have to start can be started, with nothing assumed about the requests |
| StoreAnchors.StragglerSparesExactly | scripts/release/orchestrate.py:549-565 | the late deletions of a client that outlives its session spare a bundle for certain exactly when its run had not doomed it or nothing of it is there |
| StoreAnchors.StragglerHitsRecord | scripts/release/orchestrate.py:405-412 | such a client can delete the bundle of a release recorded after its plan was made |
| StoreAnchors.MarkerFixesPlace | scripts/release/orchestrate.py:199-218 | while its marker stays, a release keeps the place in the retention order that its first finalization gave it |
| ImmutableStore.SteadyKeepsBytes | scripts/release/cos.py:359-384 | while a key is present its bytes never change |
| ImmutableStore.CosStore.PutObject | scripts/release/cos.py:367-384 | the conditional put stores only under a free key, and acceptance means the writer's bytes are stored |
| ImmutableStore.CosStore.PutImmutable | scripts/release/cos.py:341-384 | success means the stored object is the writer's; one that stays is confirmed when equal, refused when not, never replaced; without failing requests it is refused exactly when other bytes are stored or none |
| ImmutableStore.CosStore.EnsureMarker | scripts/release/orchestrate.py:199-218 | success returns the marker that is stored; a marker that stays is confirmed with the time it names |
| ImmutableStore.CosStore.FinalizeAll | scripts/release/orchestrate.py:199-218 | over any finalizations with deletions and other writers between, two successes under a key that stayed present agree on the first time |
| Arrangement.CoversExactlyTheStay | apps/web/src/orderViewValidation.ts:214-260 | an accepted arrangement names a unit for exactly the nights of the stay |
| Arrangement.IntervalsNameTheirNights | apps/web/src/orderViewValidation.ts:257-260 | on every night of an interval the stay is in the unit of that interval |
| Arrangement.ConstantBetweenEndpoints | apps/web/src/orderViewValidation.ts:257-274 | the unit does not change between days that no endpoint separates |
| Arrangement.NightsFollowSamples | apps/web/src/orderViewValidation.ts:262-274 | every night shows the units of the latest sampled day |
| Arrangement.SamplingDecidesNights | apps/web/src/orderViewValidation.ts:276-286 | sampling boundaries accepts exactly when every night is equal |
| Arrangement.FirstSampleIsFirstNight | apps/web/src/orderViewValidation.ts:288-296 | the first sampled difference is the first night that differs |
| Arrangement.MoveDecidesNights | apps/web/src/orderViewValidation.ts:288-296 | a move is accepted exactly when there is a first changed night from which on the unit is constant and named |
| Arrangement.ExtensionDecidesNights | apps/web/src/orderViewValidation.ts:337-349 | an extension is accepted exactly when the first changed night is the old departure and keeps the last unit, or the unit is constant from it on |
| Arrangement.ExtensionKeepsOldNights | apps/web/src/orderViewValidation.ts:337-349 | an extension leaves the arranged nights alone exactly when its first sampled difference is the old departure; then it is accepted exactly when the first new night keeps the last unit, and otherwise exactly when it moves the stay into one unit from some arranged night on |
| Arrangement.ExtensionMovesArrangedNight | apps/web/src/orderViewValidation.ts:337-349 | an accepted extension that moves an arranged night |
| Arrangement.ScatteredTailIsAccepted | apps/web/src/orderViewValidation.ts:337-349 | an accepted extension with scattered later nights |
| Snapshots.ArrangementFromHistoricalSnapshot | apps/web/src/orderViewValidation.ts:499-518 | folding an accepted snapshot gives a well-formed, canonical arrangement of the stay whose nights are the snapshot |
| Snapshots.FoldedIsFaithful | apps/web/src/orderViewValidation.ts:473-518 | folded nights are contiguous, with different adjacent units, and expand to the same nights |
| Snapshots.CanonicalIsUnique | apps/web/src/orderViewValidation.ts:245-255 | two canonical arrangements with equal nights are identical |
| Reschedule.FollowsSchemeBReschedule | apps/web/src/orderViewValidation.ts:310-335 | the loop accepts exactly the arrangements that follow the prescribed nights; for another length exactly those that keep the unit of every overlapping night and carry the unit of the first and the last old night outwards |
| Reschedule.OtherLengthKeepsAndCarries | apps/web/src/orderViewValidation.ts:321-333 | at another length: a new night inside the old stay keeps its unit, one before the old arrival has that of the first old night, one from the old departure on that of the last |
| Reschedule.RescheduleExists | apps/web/src/orderViewValidation.ts:310-335 | for every old arrangement and new dates some arrangement passes |
| Reschedule.RescheduleUnique | apps/web/src/orderViewValidation.ts:310-335 | all that pass for the same dates agree on every night |
| Reschedule.SameLengthShifts | apps/web/src/orderViewValidation.ts:318-322 | a reschedule of equal length passes exactly when it is a shift |
| Reschedule.SameLengthSymmetric | apps/web/src/orderViewValidation.ts:310-335 | acceptance at equal length is symmetric |
| Reschedule.SameLengthComposes | apps/web/src/orderViewValidation.ts:310-335 | accepted reschedules of equal length compose |
| ArrangementHistory.ValidateArrangementChange | apps/web/src/orderViewValidation.ts:351-401 | the check accepts exactly the changes that are permitted night by night |
| ArrangementHistory.ChangeOfNights | apps/web/src/orderViewValidation.ts:351-401 | which changes are accepted, type by type, in dates and nights: which nights stay, and from where on the stay is in one unit |
| ArrangementHistory.MatchCorrection | apps/web/src/orderViewValidation.ts:770-779 | exactly one correction of the batch is the order's, and its snapshots fold to the recorded change |
| ArrangementHistory.OneOwnCorrection | apps/web/src/orderViewValidation.ts:770-779 | there is one own correction exactly when one place of the batch names the order, and it is that one |
| ArrangementHistory.AssertHistory | apps/web/src/orderViewValidation.ts:764-792 | the loop accepts exactly the chained histories from the original to the effective arrangement |
| ArrangementHistory.HistoryIsOneChain | apps/web/src/orderViewValidation.ts:764-792 | an accepted history leads from the original to the effective arrangement, hands each arrangement on unchanged, and never goes back in time or changes its currency |
| ArrangementHistory.ChangeKeepsEarlierNights | apps/web/src/orderViewValidation.ts:351-401 | a change other than a reschedule or correction keeps the arrival and every night before the one first night it can touch |
| ArrangementHistory.StretchKeepsNights | apps/web/src/orderViewValidation.ts:764-792 | over a stretch without those two, nights before the earliest change point keep their unit in every version |
| ArrangementHistory.ArrivalMovedBy | apps/web/src/orderViewValidation.ts:764-792 | when the arrival is not the original one, a reschedule or correction in the history moved it |
| Corrections.Normalize | packages/db/src/admin-historical-stay-corrections.ts:188-224 | accepts exactly 1 to 100 valid items of at most 366 nights without repeated orders, and returns the same items in order |
| Corrections.AssertFinalSetHasNoInternalConflicts | packages/db/src/admin-historical-stay-corrections.ts:246-263 | passes exactly when the final placements are pairwise free of clashes |
| Corrections.OverlapIsClash | packages/db/src/admin-historical-stay-corrections.ts:313-333 | an overlapping interval on a conflicting unit is exactly a night in conflict |
| Corrections.ClashIsCandidate | packages/db/src/admin-historical-stay-corrections.ts:292-309 | a completed stay that clashes is found by its claim rows |
| Corrections.AssertNoOutsideCompletedConflicts | packages/db/src/admin-historical-stay-corrections.ts:287-337 | passes exactly when no final placement clashes with a completed stay outside the set |
| Corrections.CorrectionKeepsNights | packages/db/src/admin-historical-stay-corrections.ts:871-1001 | applying an accepted set leaves no two completed stays in conflicting units on one night |
| Corrections.NoDoubleOccupancyMeans | packages/db/src/admin-historical-stay-corrections.ts:231-234 | freedom from conflicts is that a room held as a whole has no other completed stay in it that night, and two completed stays share a room only as two different beds |
| Corrections.PairwiseFreeMeans | packages/db/src/admin-historical-stay-corrections.ts:246-263 | the check of the set against itself lets through exactly the sets of which no two items share a room on a night but as two different beds |
| Corrections.FreeOutsideMeans | packages/db/src/admin-historical-stay-corrections.ts:287-337 | the check against other stays lets through exactly the sets that share no room on a night with a completed stay outside the set but as two different beds |
| Corrections.AvailableMeans | packages/db/src/admin-historical-stay-corrections.ts:265-285 | the same for active claims, overdue stays and closed units |
| Corrections.SwapsAllowed | packages/db/src/admin-historical-stay-corrections.ts:246-337 | stays of a set that trade places, each place used once, pass both conflict checks |
| Corrections.SwapsAreAdmissible | packages/db/src/admin-historical-stay-corrections.ts:519-539 | such a set is admissible exactly when each of its items is in order on its own |
| Corrections.TwoTradeRooms | packages/db/src/admin-historical-stay-corrections.ts:246-337 | two guests who trade rooms: neither item is admissible alone, both together are |
| Corrections.NoReplay | packages/db/src/admin-historical-stay-corrections.ts:375-381 | an applied set is refused when it is sent again |
| Corrections.AdmissibleAlike | packages/db/src/admin-historical-stay-corrections.ts:188-263 | the verdict does not depend on the order of the items |
| Corrections.Register.Check | packages/db/src/admin-historical-stay-corrections.ts:519-539 | refuses only sets that are not admissible, and lets through only sets without conflicts |
| Corrections.Register.Load | packages/db/src/admin-historical-stay-corrections.ts:362-492 | an item is refused exactly when its dates, order, version, units, occupants or entitlements do not suit, or nothing would change |
| Corrections.InOrderExactlyWhenItCorrects | packages/db/src/admin-historical-stay-corrections.ts:362-492 | a valid item is in order exactly when its taking effect would move a completed order at the expected version to another place of the same kind and product that holds its occupants |
| Corrections.Register.Apply | packages/db/src/admin-historical-stay-corrections.ts:839-1001 | moves every item's order, one version on, with claim rows for its nights, exactly when no unit is held by another |
| Corrections.Register.ApplyItem | packages/db/src/admin-historical-stay-corrections.ts:871-1001 | applies one item exactly when its order, version and unit are still as expected and free |
| Corrections.Register.Confirm | packages/db/src/admin-historical-stay-corrections.ts:510-1001 | a set is accepted exactly when it is admissible, and is applied whole or not at all; afterwards no room is held twice on a night but as two different beds; every order of the set was completed and at the expected version, and is now one version on and at its target for exactly the target nights, in an active unit of the same kind and product that holds its occupants, and otherwise as before; claim rows are added for the target nights only |
| RowLocks.RowOrder | packages/db/src/command-authorization.ts:935-1019 | the order of rows by table, id, property and command is a strict total order |
| RowLocks.RunsAreSound | packages/db/src/command-authorization.ts:935-1019 | in every run no two transactions hold a row in conflicting modes |
| RowLocks.ExclusiveMeans | packages/db/src/command-authorization.ts:941-948 | exclusion is that the locks which two transactions under way have taken are never on one row unless both share it |
| RowLocks.LocksExclude | packages/db/src/command-authorization.ts:941-948 | a row locked for update is held by nobody else, shares wait only for updates, and whoever asks for a held row waits unless both share it |
| RowLocks.WaitsAreAhead | packages/db/src/command-authorization.ts:941-1012 | who waits asks for a lower row than the one waited for, or for the same row later |
| RowLocks.NoCycle | packages/db/src/command-authorization.ts:935-1019 | no path in the wait-for graph, queueing included, returns to its start |
| RowLocks.SomeoneProceeds | packages/db/src/command-authorization.ts:935-1019 | whenever a transaction is unfinished, some transaction can take its next lock or end |
| RowLocks.AllCanEnd | packages/db/src/command-authorization.ts:935-1019 | every reachable state can run until all transactions have all their locks and end |
| CommandAuthorization.SortedUniqueIds | packages/db/src/command-authorization.ts:298-300 | strictly rising, with the same ids |
| CommandAuthorization.Authorization.LockSubjects | packages/db/src/command-authorization.ts:940-966 | locks exactly the subjects in rising order, or stops at the first unknown one |
| CommandAuthorization.Authorization.LockPropertyGrants | packages/db/src/command-authorization.ts:978-996 | locks exactly the property grants, or stops at the first missing one |
| CommandAuthorization.Authorization.LockCommandGrants | packages/db/src/command-authorization.ts:169-183 | locks exactly the command grants, by subject and then by command |
| CommandAuthorization.Authorization.LockSession | packages/db/src/command-authorization.ts:453-460 | locks the caller's session, if that is the credential |
| CommandAuthorization.Authorization.LockTokens | packages/db/src/command-authorization.ts:462-526 | locks the tokens in rising order and passes exactly when all are in scope |
| CommandAuthorization.Authorization.LockCeilings | packages/db/src/command-authorization.ts:528-532 | locks exactly the ceilings of those tokens |
| CommandAuthorization.Authorization.AuthorizeCommandAccess | packages/db/src/command-authorization.ts:889-1019 | rows are locked in strictly rising order whatever the outcome; it passes exactly when caller and related subjects exist with grants, the credential is the caller's and neither revoked nor expired, and every token is of the property and a known subject; then the subjects, their grants and listed commands, the session, the tokens and their ceilings are locked, subjects and tokens for update in token commands |
| CommandAuthorization.GrantsMeans | packages/db/src/command-authorization.ts:453-526 | when access may be judged, with subjects, grants, session and tokens written out |
| CommandAuthorization.AuthorizationsNeverDeadlock | packages/db/src/command-authorization.ts:889-1019 | any number of authorizations, each anywhere along its locks, wait in no circle and can all end |
| Payments.LinkKeeps | packages/db/src/migrations/060_external_payments.sql:170-217 | linking a synchronized bill keeps the invariant and makes a match only with exactly the bill's amount and not under review |
| Payments.StepKeeps | packages/db/src/external-payments.ts:99-173 | every step of every transaction, of synchronization and of linking keeps the invariant and every match |
| Payments.LocksWhatIsThere | packages/db/src/external-payments.ts:107-113 | a confirmation asks for exactly the bills of its property, kind and number that are there when it asks, and has them when nobody else holds one |
| Payments.HeldBillIsLeftAlone | packages/db/src/external-payments.ts:107-126 | a held bill is not changed by anybody, and nobody else gets hold of it or inserts a match for it |
| Payments.CommitKeeps | packages/db/src/external-payments.ts:158-173 | a commit adds matches of bills and facts that had none, each with exactly the bill's amount and not under review |
| Payments.RunsKeep | packages/db/src/external-payments.ts:99-173 | every run keeps the invariant and every match |
| Payments.LockedBindSucceeds | packages/db/src/external-payments.ts:108-173 | a confirmation whose lock found the bill can insert the match at any time |
| Payments.ReadJudgesExactly | packages/db/src/external-payments.ts:114-153 | a confirmation goes on with a bill exactly when it is the only one of that number, successful, not under review, of the payment's amount and original transaction, and unmatched and not historical or matched within the corrected chain |
| Payments.BindInsertsExactly | packages/db/src/external-payments.ts:158-173 | the match is inserted exactly when one fact of the command answers the payment and the bill is still there, unmatched, successful, not under review and of the amount |
| Payments.LinkMatchesExactly | packages/db/src/migrations/060_external_payments.sql:170-217 | synchronization links a bill exactly when it is successful, unmatched and not under review, one recorded fact alone may stand for it, and no refund without a number could be meant |
| Payments.LinkReviewsExactly | packages/db/src/migrations/060_external_payments.sql:170-217 | a link puts a bill under review exactly when the choice of the fact is not clear or the one fact is matched already, and changes nothing else besides the match |
| PaymentRuns.EveryMatchIsRight | packages/db/src/external-payments.ts:99-173 | in every run no fact settles two bills, and a matched fact has its bill's property, kind and reference, and its amount unless the bill is under review |
| PaymentRuns.MatchOrigin | packages/db/src/external-payments.ts:158-173 | every match goes back to one commit or link with exactly equal amounts, and the amounts differ later exactly when the last synchronization since then set another one |
| PaymentRuns.AmountFollowsLastSync | packages/db/src/wecom-sync.ts:30-41 | a bill's amount is that of its last synchronization |
| PaymentRuns.AmountChangesAfterMatch | packages/db/src/wecom-sync.ts:30-41 | a run in which a matched bill takes another amount |
| PaymentRuns.RefusableExactlyWhenUnlocked | packages/db/src/external-payments.ts:108-173 | steps of others can make a judged confirmation fail exactly when its lock had found no bill |
| PaymentRuns.LateBillIsJudgedTwice | packages/db/src/external-payments.ts:108-126 | a run in which a bill that arrives after the lock is judged fit by two transactions |
| EventFeed.RowsAreConsecutive | packages/db/src/integration-queries.ts:207-211 | the rows read after a cursor are the next events without a gap |
| EventFeed.Feed.Publish | packages/db/src/migrations/058_integration_events.sql:299-325 | the oldest pending events get the next consecutive numbers |
| EventFeed.Feed.Prune | packages/db/src/migrations/058_integration_events.sql:357-371 | exactly the prefix before the first event held back goes, and the floor rises to it |
| EventFeed.Feed.ReadPmsEventFeed | packages/db/src/integration-queries.ts:165-217 | each refusal in its case; otherwise a gapless page after the cursor and a true has_more |
| EventFeed.Consumer.Poll | packages/db/src/integration-queries.ts:178-216 | a consumer is told that its cursor expired exactly when it lies below the floor; otherwise it gets a full page or reaches the head |
| EventFeed.Consumer.CatchUp | packages/db/src/integration-queries.ts:207-216 | following next_cursor while there is more delivers everything up to the head |
| EventFeed.Consumer.Follow | packages/db/src/integration-queries.ts:165-217 | over any run of publishing, pruning, polling and lost answers a consumer has received every event after its start exactly once in order, and every recorded event is published or pending, once and in order |
| ReadPoller.Poller.Refresh | apps/web/src/readPoller.ts:16-25 | starts one read when idle, only queues during a read, does nothing after dispose |
| ReadPoller.Poller.TimerFires | apps/web/src/readPoller.ts:42-45 | the only timer fires and becomes one read when visible, the timer again when not |
| ReadPoller.Poller.Settles | apps/web/src/readPoller.ts:24-40 | the callbacks made and the one timer set, immediate exactly when a refresh came meanwhile; neither after dispose |
| ReadPoller.Poller.Dispose | apps/web/src/readPoller.ts:47-50 | no timer is left and the read in flight is aborted |
| ReadPoller.Poller.RefreshesCoalesce | apps/web/src/readPoller.ts:16-45 | any number of refreshes during a read make exactly one more, at once, also when callbacks throw |
| ReadPoller.Drive | apps/web/src/readPoller.ts:10-50 | over any events: one read and no timer, or no read and one timer, until dispose; afterwards no callback and no timer |

## Left out

- Docker, zstd, SSH, HTTP health checks and the object-store SDK: nondeterministic outcomes over small abstract state.
- Manifest, bundle, archive and receipt validation, regular-expression checks of identities, credentials and file ownership: field checks; whether an object parses and validates is part of the modelled document.
- Hash collisions: checksums are injective here.
- Deployment.Deployer.Configure: the byte editing of the two files is a parameter (the candidate), and the backup directory is written as one step before the journal; a crash inside it leaves only an unused directory.
- Images.Startable: the tag of a bundle is represented by its version and revision, which validation makes equal to its text; labels, layers and platform of an image are part of what may raise.
- DeploymentRuns.Drive: other tools that load, tag or remove images, and the removal of an image that no tag names, are not modelled.
- Failure-evidence records: what they hold; an error in writing one is swallowed, and a kill there ends the process as at any step.
- Survival.Session: the marker written between the receipt and retention is modelled in ImmutableStore, not in the same run; uploads fall between sessions, not into a retention run; a client that goes on deleting after its session has ended is not part of the runs, only of the lemmas about stragglers.
- StoreAnchors.StoreKeepsReady: that an archive becomes the same image whenever its bundle is loaded, and that an adopted image that is named after a bundle is that image, is assumed.
- RetentionRun.ReleaseStore.RetentionPlan: a prefix is readable or not for a whole run; a store error that is not recognized as a release error ends the run like a kill; the report keeps sets of prefixes, not the reasons, the event log or malformed keys.
- Command-line parsing, environment variables, the locked SSH session protocol and audit logging.
- Pricing, occupants, fulfilment and totals in the order view: long field checks without a property across steps.
- ArrangementHistory.AssertHistory: the shape of each history item is a precondition, and of the pricing summary only the currency is modelled.
- Corrections.Register.Confirm: refusal codes are not distinguished; preview with its hashes, amendments, copied pricing revisions and audit rows are not modelled; check and apply run under the property-wide advisory lock, so no other correction interleaves; claims are inserted and released in one step.
- Corrections.Normalize: the order of ids is that of code points, where the code uses the locale order; any fixed total order serves.
- CommandAuthorization.Authorization.AuthorizeCommandAccess: the unlocked preflight of token commands, the resolution of the target token and the decision over access levels and ceilings after all rows are locked are not modelled; every row is read once, so one directory stands for what the locking reads return; later locks of the command itself are not modelled.
- RowLocks.WaitsFor: the database's queue is modelled by the number under which a request was queued; the database's own deadlock timeout is not modelled.
- Payments.EveryMatchIsRight: enabling and disabling sources, recursive lookup of the chain that a correction belongs to (a given set of facts here), currencies and the order behind a refund's original payment are not modelled; a link takes effect in one step, as synchronization holds the bill until it commits.
- EventFeed.Feed.ReadPmsEventFeed: the cursor's encoding and signature are two flags; event bodies are opaque; delivery and its acknowledgement are the set of events held back.
- EventFeed.Feed.Prune: the aggregate over held-back events is written as a scan from the floor.
- ReadPoller.Poller.Refresh: a read function that itself calls the poller before it returns is not modelled.
- Time zones, calendar formatting, React pages, the assistant, login, rate limits, wallet and court booking.
- The projection of orders in the integration queries: joins and sorting without a property across steps.
