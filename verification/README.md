# Verified model of the Hermes deployment tools

The Hermes tools install, certify, roll back and verify a Fedora host. Most of their difficulty
lies in journals that must survive crashes, reboots and retries; the rest lies in a few pure cores.
This project models both in Dafny and proves what the tools are for, over all inputs and all runs.

    dafny verify dfyconfig.toml

How to read it:

- **State changed step by step** is a class whose methods change the fields the programs change, in the
  order in which they make them durable. What the world decides (failing commands, lost answers, other
  parties, where the process dies) is an argument. A process dies at a numbered cut or when its `budget`
  of durable operations is used up; a dead process does nothing more.
- **Histories** are real values: a log of events in order, kept by every operation. A driver method runs any
  list of operations from the initial state and promises the properties of the resulting log or state; these
  drivers (`Run`, `Serve`, `Runs`, `RestoreRun`, `RunConsole`, ...) carry the main theorems.
- **Specification functions** say for some classes (`Controller`, `CredentialBroker`, `Lifecycle`, `Schedule`,
  `SimpleInstaller`) what one request leaves, for every failure and cut. The methods are proved equal to them, and
  the lemmas about them (`Answers`, `DiesAnywhere`, `RevokeInOrder`, ...) say what they mean.
- **Programs without state** are functions with lemmas, or loops proved against such functions.

| module | models |
|---|---|
| `Deployment`, `HostFiles` | the unattended host: phase journal across four boots, one-shot offline replay, file undo log |
| `Controller`, `RevokedKeys`, `CredentialBroker` | the release controller, the runs of it that leave a revoked key on the host, and the lease broker it talks to |
| `Lifecycle`, `Schedule`, `FixtureCleanup` | disposable certification runs, their schedule and their teardown |
| `SimpleInstaller`, `UndoLog`, `DataArchive` | the simple installer's chain of deployments, and its data archive |
| `LabRestore`, `EfiInjection` | the lab's directory swap and boot image publication |
| `ConfigContract`, `EnvFile`, `ConfigRun` | the configuration contract: applying it and verifying it |
| `Nevra`, `Inventory`, `Order` | package names, the predicted and the observed inventory |
| `Console` | the LUKS console gate |
| `Manifest`, `ManifestVerify` | the migration manifest: printing, parsing, verifying |
| `Text`, `Options`, `Phases`, `Histories` | what several modules share: the Python text operations, optional values, the journal phases and where one request may lead, lawful logs |

## Findings

Properties that one would expect and that do not hold, each with a concrete run and the exact condition:

- A rollback writes the credential back first and the journal last. If it dies in between, the release can still be
  advanced and closed with the old key, whose lease the controller then revokes: `RevokedKeys.TornRun` is such a
  run, through both reboots; `RevokedKeys.TornExactly` is the condition at the step, for every phase from which a
  release can still be closed (an interrupted `package-staging` is not one: `RevokedKeys.StagingNeverHolds`). Once a release has been closed and rolled back, any further
  rollback restores the retired key (`HostFiles.RollbackTwice`, `RevokedKeys.LateExactly`); a lost answer to a single
  rollback command is enough, because the failure path asks for a second one (`RevokedKeys.LostAnswerRun`).
  `RevokedKeys.SafeExactly`: no run leaves a revoked key on the host if and only if no rollback can die after its first
  file and, where an operator may roll back, none can have an effect.
- A rollback while a replay is staged does not unstage it: the next boot replays although the journal says
  `rolled-back` (`Deployment.ReplayAfterRollback`). A replay starts if and only if `Deployment.Host.ReplayDue` holds,
  which does not look at the journal (`Deployment.Host.Execute`).
- `issue` returns a key as the provider sent it, `read` returns it stripped (`CredentialBroker.PaddedKey`). All deliveries
  of a lease are the same string if and only if the stored key has no outer white space or was not delivered both
  ways (`CredentialBroker.DeliveriesAgree`).
- A contract that pins the program's own bookkeeping section can be rejected right after it was applied
  (`ConfigRun.PinnedProfileCounterexample`); `ConfigRun.WrittenVerifiesPrecisely` says which contracts never are.
- An allowlist with an empty key makes the rewrite of `.env` replace comments and blank lines
  (`EnvFile.CommentsKeptPrecisely`).
- A path in the contract with an empty component other than a trailing one is skipped by the drop but not by the
  lookup (`ConfigContract.ReplacementPrecisely`), and a contract value with outer white space passes `--check` and
  fails verification (`EnvFile.PaddedValueCounterexample`, `EnvFile.CheckedEnvVerifies`).
- A boot path whose original content already is the injected image counts as original for a later, different image.
  After a complete injection, a clean run with another image changes a path if and only if it and all paths before it
  held the first image to begin with (`EfiInjection.SecondImage`; `EfiInjection.OriginalIsTheImage` is such a run). A
  path that really was replaced never changes again (`EfiInjection.Runs`).
- With a clock turned back a maintenance slot can be served twice (`Lifecycle.ClockTurnedBack`). Over a given list of
  slots every run serves each slot once if and only if no slot comes back after a different one (`Lifecycle.Run`,
  `Lifecycle.MostDemanding`).

## Model

| member | source | states |
|---|---|---|
| Deployment.Run | scripts/hermes/unattended/host.py:203-309 | over every run of any operations, cut anywhere, with reboots, a stale guard and outside interference: closing presupposes, in order, an acknowledged snapshot, a credential, a staged replay, its start and completion in a later boot and acceptances in two still later boots; the replay starts at most once; the image is selected only verified; nothing moves forward after a rollback |
| Deployment.Consequences | scripts/hermes/unattended/offline.py:99-144 | the invariant kept by all operations implies the four properties of whole runs, stated on positions of the log alone |
| Deployment.SmoothRun | scripts/hermes/unattended/host.py:265-309 | a run in which nothing fails reaches `closed` through `advance` alone once the credential is there, three boots after it began |
| Deployment.Grow | scripts/hermes/unattended/host.py:159-162 | a new log entry that obeys its rule keeps every earlier entry lawful, whatever milestone it places |
| Deployment.PlaceInv | scripts/hermes/unattended/host.py:159-162 | an event and the journal entry recording it keep journal, replay record and history in agreement |
| Deployment.SetbackInv | scripts/hermes/unattended/host.py:444-446 | journaling a rollback from any phase keeps that agreement |
| Deployment.Host.Snapshot | scripts/hermes/unattended/host.py:203-234 | a first attempt succeeds if and only if preflight, guard and archive succeed, the application backup is there or can be made, no snapshot file exists and the process lives; the contract says for every failure and cut what it leaves of backup, snapshot file and journal; later calls only confirm the file |
| Deployment.Host.AcknowledgeBackup | scripts/hermes/unattended/host.py:236-239 | succeeds if and only if the digest is the journaled one, the phase is one of the two that admit it and the process lives; a refusal changes nothing |
| Deployment.Host.Credential | scripts/hermes/unattended/host.py:241-252 | succeeds if and only if the backup is verified, encryption works and the process lives; a refusal changes nothing |
| Deployment.Host.StageRelease | scripts/hermes/unattended/host.py:270-279 | a surviving call ends in `reboot-pending` with the replay staged in this boot if and only if the packages are the baseline, no other update is staged and its five commands succeed; the image is installed and the phase left exactly as far as it got |
| Deployment.Host.StageReplay | scripts/hermes/unattended/offline.py:54-88 | succeeds if and only if nothing else is staged, the packages are the baseline and verify, and the unit is accepted; record, unit, link, staged record and marker are written in this order, whatever the cut |
| Deployment.Host.Execute | scripts/hermes/unattended/offline.py:99-138 | only a selected transaction runs, its marker is consumed first; a replay starts if and only if the marker is ours, the record is staged in another boot, the packages are the baseline and verify, and the process lives, whatever the journal says; a waiting replay completes, with the verified image selected, if and only if it starts, leaves the predicted packages and its commands succeed |
| Deployment.ReplayAfterRollback | scripts/hermes/unattended/offline.py:99-138 | a concrete run in which a replay starts after the journal was rolled back |
| Deployment.Host.FinishReplay | scripts/hermes/unattended/offline.py:119-130 | succeeds if and only if the inventory is the expected one, the image the hashed one, the staged unit is still there and its commands succeed; the image is then selected |
| Deployment.Host.ConfirmReplay | scripts/hermes/unattended/host.py:280-289 | in a later boot a surviving call enters the runtime phase if and only if the inventory is the predicted one, the record was completed in another boot and preflight succeeds; in the same boot it changes nothing |
| Deployment.Host.Runtime | scripts/hermes/unattended/host.py:290-309 | a surviving call reaches the next stop if and only if all its commands succeed, and otherwise rolls the release back; it closes only from the persistence reboot and in another boot |
| Deployment.Host.Advance | scripts/hermes/unattended/host.py:265-309 | from every phase: a surviving call answers with the next stop if and only if the host is as this phase expects and all commands it needs succeed; a failure at runtime rolls back; waiting for a reboot, an unadmitted phase or an earlier rollback changes nothing |
| Deployment.Host.Rollback | scripts/hermes/unattended/host.py:382-446 | with a complete backup ends rolled back or in need of recovery, else changes nothing |
| Deployment.Host.RunGuard | scripts/hermes/unattended/host.py:451-457 | the guard rolls back, over the journal it read before taking the lock, exactly when that journal was in one of the four guarded phases and the backup is complete; otherwise it leaves the journal alone |
| HostFiles.RunThenRollback | scripts/hermes/unattended/host.py:382-446 | after any steps cut anywhere, a rollback that finishes restores every file (bytes, mode, owner or absence; bytes only of `config.yaml`), except the credential of a closed release, which it keeps; it finishes given three operations per record; one that dies after its first file has put the old credential back |
| HostFiles.RollbackTwice | scripts/hermes/unattended/host.py:388-393 | the first rollback from `closed` keeps the accepted credential, the second restores the one from before |
| HostFiles.InstallThenRollback | scripts/hermes/unattended/host.py:164-429 | a release that is captured, gets its key and its runtime has exactly the managed files changed, and a rollback puts every file back |
| HostFiles.Host.Capture | scripts/hermes/unattended/host.py:164-186 | changes no file, records the four paths as they are, the credential first; a capture that was interrupted is never resumed and never counts as complete |
| HostFiles.Host.Track | scripts/hermes/unattended/host.py:188-201 | the path is recorded as it was before the release, earlier records stay |
| HostFiles.Host.InstallCredential | scripts/hermes/unattended/host.py:241-252 | installs the key over a recorded file |
| HostFiles.Host.InstallRuntime | scripts/hermes/unattended/host.py:311-362 | every file is recorded before its first change, wherever the installation is cut and however often it is repeated; a process that survives has installed all of them, in twenty changes and one record for each new path |
| HostFiles.RuntimeFilesHold | scripts/hermes/unattended/host.py:318-359 | after an undisturbed installation each managed file has its payload, mode and owner, the overlay is gone, and no other file has changed |
| HostFiles.Host.RestoreOne | scripts/hermes/unattended/host.py:388-429 | puts exactly one recorded file back, in at most three operations, and touches no other |
| HostFiles.Host.Rollback | scripts/hermes/unattended/host.py:382-429 | restores all but the credential of a closed release, starting with the credential, may be cut and repeated, and finishes within three operations per record |
| UndoLog.RecordKeeps | scripts/hermes/unattended/host.py:188-201 | recording an unrecorded file as it is keeps the log faithful to the original files |
| UndoLog.ChangeKeeps | scripts/hermes/simple/host.py:167-169 | changing a recorded file keeps the log faithful |
| Controller.Run | scripts/hermes/unattended/controller.py:36-101 | over any invocations, cut and answered in any way: the previous lease is revoked only after a report of `closed`, the new one only after a report of `rolled-back`, no other ever; no revoked key is left on the host without a torn rollback and without a rollback of a host already rolled back from `closed` |
| RevokedKeys.SafeExactly | scripts/hermes/unattended/host.py:382-446 | for any set of rollback depths, with or without rollback commands: no run at all leaves a revoked key on the host if and only if no rollback dies after its first file and, with rollback commands, none has any effect |
| RevokedKeys.TornExactly | scripts/hermes/unattended/host.py:388-446 | from every phase from which a release can be closed, a rollback before it has closed leads to a revoked key on the host, once the deployment is resumed and its requests succeed, exactly when it dies after its first file |
| RevokedKeys.StagingNeverHolds | scripts/hermes/unattended/host.py:270-291 | a release interrupted in `package-staging` never closes and never ends with a revoked key on the host, whatever rollbacks and invocations follow |
| RevokedKeys.LateExactly | scripts/hermes/unattended/host.py:388-393 | on a host rolled back from `closed` whose previous lease is gone, a further rollback puts the revoked key back exactly when it has an effect |
| RevokedKeys.TornRun | scripts/hermes/unattended/controller.py:168-186 | a concrete pair of deployments without rollback command, the second through both reboots, that ends closed with a revoked key |
| RevokedKeys.LostAnswerRun | scripts/hermes/unattended/controller.py:168-186 | a concrete run whose only rollback command loses its answer and ends with both leases revoked |
| RevokedKeys.LateHolds | scripts/hermes/unattended/controller.py:41-44 | a smooth deployment and two rollback commands leave a revoked key, for any leases |
| RevokedKeys.Closes | scripts/hermes/unattended/host.py:265-309 | from every resumable phase, one request per boot brings the host to `closed` with the key it has, and the previous lease is given up |
| RevokedKeys.SmoothRun | scripts/hermes/unattended/controller.py:36-101 | a deployment in which nothing fails but a request during the first reboot polls through both reboots, closes the release with the key of its own lease and revokes the previous one |
| Controller.ServeLeads | scripts/hermes/unattended/host.py:203-309 | the phases a request can lead to are exactly those the operations of `Deployment.Host` keep to: one `advance` never crosses a reboot, leaves `package-staging` only in the call that entered it, and rolls back by itself only in the runtime phases |
| Controller.SuccessIsAtStop | scripts/hermes/unattended/host.py:265-309 | an `advance` that reports success is at a stop, has not rolled back, and has moved unless it waits for a reboot or the release is closed |
| Controller.AfterKeeps | scripts/hermes/unattended/controller.py:36-101 | every run keeps which key is on the host in which phase, also after rollbacks of a closed release, and what its setting excludes |
| Controller.ServeKeeps | scripts/hermes/unattended/host.py:382-446 | every request keeps that relation; settled phases stay settled |
| Controller.HeldIsOld | scripts/hermes/unattended/host.py:388-393 | a revoked key on the host is the old one, written back by a torn or a late rollback of a release that had closed |
| Controller.PolledKeeps | scripts/hermes/unattended/controller.py:69-85 | the polling loop keeps the invariant through every exit |
| Controller.FinishedKeeps | scripts/hermes/unattended/controller.py:88-101 | finishing revokes the previous lease only on a closed host that has been reported closed |
| Controller.RecoveredKeeps | scripts/hermes/unattended/controller.py:168-186 | the failure path rolls back only recoverable phases and revokes the new lease only with the old key back on the host |
| Controller.FinishedForgets | scripts/hermes/unattended/controller.py:88-101 | the previous lease is forgotten if and only if its revocation and the step that saves this are both answered |
| Controller.PreparedExactly | scripts/hermes/unattended/controller.py:47-68 | the key of this release's lease is on the host after preparation, all its steps having been answered, and a lease once chosen is kept |
| Controller.FailedStepStops | scripts/hermes/unattended/controller.py:41-85 | whatever the command and the phase, an invocation goes no further than its first step that fails |
| Controller.RecoveryNotedExactly | scripts/hermes/unattended/controller.py:168-186 | the failure path saves the stage only when the lease its rollback gave up is gone |
| Controller.Controller.Converge | scripts/hermes/unattended/controller.py:36-85 | does exactly what the specification function says |
| Controller.Controller.Poll | scripts/hermes/unattended/controller.py:69-85 | the loop computes the recursive specification |
| Controller.Controller.Recover | scripts/hermes/unattended/controller.py:168-186 | does exactly what the specification function says |
| CredentialBroker.Serve | scripts/hermes/unattended/credentials.py:63-123 | every sequence of requests by any peers, each cut anywhere, yields a lawful log: one account creation and one stored key per lease, records only advance and keep their role, keys go only to the role's user and not after deletion, revocation is reported only after a confirmed deletion followed by a 401 for that key |
| CredentialBroker.OneCreation | scripts/hermes/unattended/credentials.py:83-96 | a lawful log creates at most one account per lease |
| CredentialBroker.KeyGoesToOneUser | scripts/hermes/unattended/credentials.py:105-107 | all deliveries of a lease show the same key, up to outer white space, to the same user, none after the deletion was recorded |
| CredentialBroker.DeliveriesAgree | scripts/hermes/unattended/credentials.py:54-61 | all deliveries of a lease are the same string if and only if the stored key has no outer white space or was never both issued and read back |
| CredentialBroker.DeliveredKey | scripts/hermes/unattended/credentials.py:96-107 | every delivery shows the one stored key, raw on issue and stripped when read back |
| CredentialBroker.PaddedKey | scripts/hermes/unattended/credentials.py:96-107 | a concrete run that issues and then reads one key as two different strings |
| CredentialBroker.IssueThenRead | scripts/hermes/unattended/credentials.py:63-107 | for any key a run without failures issues the key and then reads its stripped form |
| CredentialBroker.NoKeyAfterReport | scripts/hermes/unattended/credentials.py:108-123 | no key is delivered after its revocation was reported |
| CredentialBroker.SavedOnce | scripts/hermes/unattended/credentials.py:82-102 | the records of a lease strictly advance and never change role |
| CredentialBroker.Broker.Handle | scripts/hermes/unattended/credentials.py:63-123 | keeps the invariant and does exactly what the specification function says for every message, peer, failure and cut; a fresh lease is issued the provider's key and a ready one read back when nothing fails |
| CredentialBroker.Answers | scripts/hermes/unattended/credentials.py:63-108 | what every request is answered with, and that a refused one, a check and a request by anybody but the role's user change nothing |
| CredentialBroker.RolesApart | scripts/hermes/unattended/credentials.py:40-52 | the two roles have different users and projects, and neither user is root |
| CredentialBroker.Broker.IssueFresh | scripts/hermes/unattended/credentials.py:87-103 | does exactly what the specification function says, wherever it is cut |
| CredentialBroker.IssueInOrder | scripts/hermes/unattended/credentials.py:87-103 | whatever fails or dies, an issue does a first part of one fixed course (record, creation, account, key, ready record, answer), and answers with the key only at its end |
| CredentialBroker.Broker.RevokeLease | scripts/hermes/unattended/credentials.py:108-123 | does exactly what the specification function says, wherever it is cut |
| CredentialBroker.RevokesExactly | scripts/hermes/unattended/credentials.py:108-123 | a request to revoke is answered as revoked if and only if the lease is already, or its account and key are known, the deletion is or gets confirmed, the key is rejected and the process lives; the key file is then gone |
| CredentialBroker.RevokeInOrder | scripts/hermes/unattended/credentials.py:108-123 | whatever fails or dies, a revocation does a first part of one fixed course (deletion, its record, rejection, its record, report), from the start or from the rejection on, and drops the key file between the last two |
| Lifecycle.Run | scripts/hermes/unattended/lifecycle.py:88-164 | over any invocations cut anywhere: drivers start alone and once per run, completion is earned, the journals record an end exactly as the log does, and no maintenance slot is served twice unless a slot comes back after a different one |
| Lifecycle.MostDemanding | scripts/hermes/unattended/lifecycle.py:112-113 | for any list of slots a run over it that serves each slot once if and only if no slot comes back after a different one |
| Lifecycle.SteadyIsContiguous | scripts/hermes/unattended/lifecycle.py:112-113 | a clock that is never turned back brings no slot back |
| Lifecycle.CompleteJournalIsEarned | scripts/hermes/unattended/lifecycle.py:133-161 | a journal that says complete belongs to a run that one invocation started, prepared, certified and cleaned |
| Lifecycle.DriversApart | scripts/hermes/unattended/lifecycle.py:103-124 | between two driver starts the earlier run has finished, and they belong to different runs |
| Lifecycle.CompleteIsEarned | scripts/hermes/unattended/lifecycle.py:133-161 | a complete lifecycle was started, prepared, certified and cleaned, in this order, by one invocation |
| Lifecycle.ClockTurnedBack | scripts/hermes/unattended/lifecycle.py:112-113 | a concrete run with a clock turned back serves one slot twice |
| Lifecycle.Runs.Execute | scripts/hermes/unattended/lifecycle.py:88-164 | does exactly what the specification function says, for every store, refusal, failure and cut |
| Lifecycle.SmoothCourse | scripts/hermes/unattended/lifecycle.py:112-164 | an invocation that nothing stands in the way of completes with exactly its five events and a complete, certified journal |
| Lifecycle.CleanupOnlyEnds | scripts/hermes/unattended/lifecycle.py:104-106 | cleanup-only ends an interrupted run as failed and cleaned if and only if the cleanup succeeds and the process lives, and otherwise leaves it interrupted |
| Lifecycle.Answers | scripts/hermes/unattended/lifecycle.py:88-164 | each answer (nothing to clean, deferred, already finished, complete, deferred and cleaned, failed and cleaned) is given if and only if its condition on store, invocation, failures and cut holds; a refusal to start changes nothing |
| Lifecycle.DiesAnywhere | scripts/hermes/unattended/lifecycle.py:114-164 | wherever an invocation that goes well dies, directory, journal and pointer are there from their moment on and the journal says how far it got |
| Lifecycle.LogsAnywhere | scripts/hermes/unattended/lifecycle.py:126-164 | and its events are a first part of the five of its course |
| Lifecycle.FailsForGood | scripts/hermes/unattended/lifecycle.py:141-160 | a failed preparation or certification is journaled as a failure before anything is cleaned, and stays one |
| Lifecycle.OthersUntouched | scripts/hermes/unattended/lifecycle.py:126-128 | no invocation touches the journal of any other run |
| Lifecycle.Runs.Begin | scripts/hermes/unattended/lifecycle.py:114-124 | directory, journal and pointer in this order; an interrupted beginning leaves no active run and no driver |
| Lifecycle.Runs.CleanUp | scripts/hermes/unattended/lifecycle.py:151-164 | the terminal stage reflects failure and deferral; a failed or cut cleanup leaves the run to be cleaned |
| Lifecycle.Runs.Reconcile | scripts/hermes/unattended/lifecycle.py:148-158 | marks the interrupted run as failed before it cleans it up |
| Schedule.Run | scripts/hermes/unattended/schedule.py:137-205 | any invocations with any interference yield a lawful log, the journal says complete exactly when the log has the completion, and every start belongs to a normal invocation whose window was open before and after preparation |
| Schedule.StartsInWindow | scripts/hermes/unattended/schedule.py:137-182 | an invocation that starts the certifier is a normal one, in an open window that is still open after preparation, on a frozen candidate |
| Schedule.Answers | scripts/hermes/unattended/schedule.py:137-205 | each answer is given if and only if its condition on journal, candidate, mode, windows, failures and cut holds |
| Schedule.Leaves | scripts/hermes/unattended/schedule.py:137-205 | what becomes of the journal and the candidate: a death leaves what had been journaled, a certification that ends without a pass has failed, an invocation that is not admitted changes nothing |
| Schedule.Logs | scripts/hermes/unattended/schedule.py:147-205 | the log grows by the freezing of a new candidate and the start and verdict of a certification, and by nothing else |
| Schedule.StartsOnce | scripts/hermes/unattended/schedule.py:147-187 | one schedule journal starts the certifier at most once |
| Schedule.CertifiesTheFrozen | scripts/hermes/unattended/schedule.py:183-205 | completion directly follows the start, on the candidate frozen earlier |
| Schedule.Schedule.Execute | scripts/hermes/unattended/schedule.py:137-205 | does exactly what the specification function says, for every journal, mode, failure and cut |
| Schedule.Schedule.Certify | scripts/hermes/unattended/schedule.py:179-205 | completes if and only if the certifier passed, left the frozen candidate, the cleanup succeeded and the process lives; a survivor has otherwise failed; each cut leaves exactly what was journaled before it |
| FixtureCleanup.Run | scripts/hermes/unattended/lifecycle_fixture.py:607-649 | after any cut and failing attempts nothing was destroyed before the required reconciliation and guest purge; every attempt without failures that lives long enough finishes, and leaves no domain, firmware variables, TPM, pool, pool file, certifier secret or private directory |
| FixtureCleanup.Prepare | scripts/hermes/unattended/lifecycle_fixture.py:183-213 | where preparation stops, flags and resources are exactly those written so far, and related as the cleanup needs |
| FixtureCleanup.Fixture.Cleanup | scripts/hermes/unattended/lifecycle_fixture.py:607-649 | a returned cleanup leaves nothing of an owned fixture, no certifier secrets and no private directory; without failures it returns from every reachable state |
| FixtureCleanup.Fixture.PurgeStorage | scripts/hermes/unattended/lifecycle_fixture.py:585-605 | succeeds if and only if the domain is gone, the owner cookie is there and inspected or the purge has begun, and the process lives for one operation per file and the checkpoints; it resumes from every cut |
| FixtureCleanup.Fixture.DestroyDomain | scripts/hermes/unattended/lifecycle_fixture.py:630-635 | succeeds if and only if its commands do and the process lives; the destruction checkpoint is reached only with the domain gone |
| FixtureCleanup.Fixture.PurgeSecrets | scripts/hermes/unattended/lifecycle_fixture.py:624-629 | passes if and only if the secrets are purged or can be, and then none is left |
| FixtureCleanup.Fixture.Credentials | scripts/hermes/unattended/lifecycle_fixture.py:609-612 | where the scheduler was ready and is not reconciled, passes if and only if reconciliation succeeds and the process lives; otherwise changes nothing |
| SimpleInstaller.Run | scripts/hermes/simple/host.py:421-510 | over any chain of deployments, deaths, recoveries and rollbacks, whenever the phase is `closed` or `rolled-back` the tracked files are those of the last deployment that closed and was not given up, or those from before the first, and the journal links to that deployment; the requests determine the outcome |
| SimpleInstaller.Installer.Prepare | scripts/hermes/simple/host.py:446-489 | keeps that invariant through recovery, a new undo log and a failing preparation, and does exactly what the specification function says, wherever it dies |
| SimpleInstaller.Preparation | scripts/hermes/simple/host.py:446-489 | an undisturbed preparation of a settled host waits for access with its writes applied; one in which a command fails ends rolled back, linked to the same predecessor |
| SimpleInstaller.Installer.Apply | scripts/hermes/simple/host.py:158-169 | a tracked write keeps the undo log faithful, also when cut between tracking and writing |
| SimpleInstaller.Installer.Deploy | scripts/hermes/simple/host.py:499-509 | closes only from confirmed access, with exactly the requested writes applied; it closes if and only if no command fails, and if one does and the process lives, the journal says rolled back and the files are those of the last accepted deployment |
| SimpleInstaller.SmoothDeployment | scripts/hermes/simple/host.py:446-509 | prepare, confirm and deploy without failures close the deployment over exactly the writes of both steps, linked to the one it replaces |
| SimpleInstaller.LeadsToOne | scripts/hermes/simple/host.py:421-510 | what a run leads to is what its requests compute, and nothing else |
| SimpleInstaller.Installer.Rollback | scripts/hermes/simple/host.py:440-445 | only a closed deployment with a predecessor is rolled back, and the outcome is exactly that of the recovery that follows |
| SimpleInstaller.GivingUp | scripts/hermes/simple/host.py:440-445 | an undisturbed rollback gives up a closed deployment with a predecessor, and leaves anything else alone |
| SimpleInstaller.Installer.Recover | scripts/hermes/simple/host.py:380-418 | settles every unfinished deployment, changes nothing that is settled, and finishes given one write per record and one for the journal |
| SimpleInstaller.RecoveredExactly | scripts/hermes/simple/host.py:380-418 | a recovery is done if and only if there was nothing to do, or the services come back and the process lives for all records and the journal |
| SimpleInstaller.Installer.RestoreAll | scripts/hermes/simple/host.py:389-395 | a process that survives the loop has all tracked files back |
| DataArchive.SnapshotThenRestore | scripts/hermes/simple/data.py:34-78 | completes if and only if the snapshot is possible and no file of it stands where a directory must stay; a completed restore leaves every private path untouched and the public tree equal to the snapshot's (names, kinds, bytes, modes of the owner only) plus only directories holding private paths |
| DataArchive.OwnerBitsOnly | scripts/hermes/simple/data.py:77 | a restored mode keeps the owner's digit and has no group, other or special bit |
| DataArchive.Snapshot | scripts/hermes/simple/data.py:34-49 | archives exactly the public paths, each once and after its parent, within the limit; refuses if and only if there is a public link or special file or the public files exceed the limit |
| DataArchive.Members | scripts/hermes/simple/data.py:17-31 | accepts an archive if and only if every entry is a public file or directory without `..`, no path occurs twice and the size is within the limit |
| DataArchive.DataRoot.DeletePublic | scripts/hermes/simple/data.py:56-66 | depth-first deletion leaves exactly the private paths and the directories holding one |
| DataArchive.DataRoot.WriteEntry | scripts/hermes/simple/data.py:67-78 | writes one entry with its masked mode if and only if no link is on the way and kinds agree |
| DataArchive.DataRoot.Restore | scripts/hermes/simple/data.py:52-78 | completes if and only if no file of the snapshot stands where a directory must stay, and then yields the snapshot over what stays |
| LabRestore.RestoreRun | scripts/hermes/lab_guest.py:176-232 | every restore ends with all trees new, or all original with the same services running, or stopped with every original in the home or the retained stage; which of the five outcomes occurs is an if-and-only-if on the faults alone: a failed rename is rolled back unless the undo, as many operations as there were renames, fails itself |
| LabRestore.Lab.StopWriters | scripts/hermes/lab_guest.py:104-125 | stops both units and remembers exactly those that ran, or gives up with the same units running |
| LabRestore.Lab.Restart | scripts/hermes/lab_guest.py:128-130 | starts exactly the remembered units |
| LabRestore.Lab.Swap | scripts/hermes/lab_guest.py:209-213 | every tree listed as moved has its original displaced, every other its original in place; the undo of a failed swap takes as many operations as it did renames |
| LabRestore.Lab.Undo | scripts/hermes/lab_guest.py:214-221 | a complete undo restores the home; it completes if and only if none of its operations fails, a missing tree needing one and a swapped one two; an incomplete one loses no original |
| EfiInjection.Runs | scripts/hermes/unattended/lab_boot.py:119-166 | over any runs with any images, cut anywhere: each path holds its original or a published image, a replaced path has its original in the backup and never changes again, success means all paths hold the image |
| EfiInjection.Esp.Publish | scripts/hermes/unattended/lab_boot.py:137-160 | changes one path only from its backed-up original to the verified image; without faults succeeds exactly when the path is ready; each fault leaves exactly the backup and the pending file written before it |
| EfiInjection.Esp.Inject | scripts/hermes/unattended/lab_boot.py:119-166 | success means every path holds the image; a fault-free run succeeds exactly when every path is ready, and changes exactly the paths that hold something else and come after ready paths only |
| EfiInjection.SecondImage | scripts/hermes/unattended/lab_boot.py:137-160 | after a complete injection, a clean run with another image changes a path if and only if this path and all before it held the first image originally |
| EfiInjection.OriginalIsTheImage | scripts/hermes/unattended/lab_boot.py:137-160 | a path whose original already was the image is changed by a later run with another image |
| ConfigContract.AppliedVerifies | scripts/hermes/manual/config/verify-contract.py:29-101 | what one program produces, the other accepts, for every configuration and every contract whose replaced paths have no empty component but trailing ones |
| ConfigContract.ReplacedExactly | scripts/hermes/manual/config/harden-config.py:153-158 | every replaced path of the result equals the contract's value exactly, or is absent with it |
| ConfigContract.ReplacementPrecisely | scripts/hermes/manual/config/harden-config.py:74-85 | exact replacement holds for all trees if and only if the path has no empty component other than trailing ones |
| ConfigContract.UnmentionedKept | scripts/hermes/manual/config/harden-config.py:64-85 | a path neither set nor replaced reads the same before and after |
| ConfigContract.ApplyIdempotent | scripts/hermes/manual/config/harden-config.py:153-158 | applying the contract twice is applying it once |
| ConfigContract.CompareMerged | scripts/hermes/manual/config/verify-contract.py:29-51 | comparing a merged tree with the patch finds no problem |
| ConfigContract.CompareExactly | scripts/hermes/manual/config/verify-contract.py:29-51 | the comparer finds nothing if and only if, at every path of the contract, the configuration has the same scalar, the same list (up to `list(got or [])`) or a mapping, where an empty mapping may also be null or missing |
| ConfigContract.VerifiedExactly | scripts/hermes/manual/config/verify-contract.py:74-101 | the verifier accepts a configuration if and only if it meets the contract at every path and equals it at every replaced one |
| ConfigContract.MergeInto | scripts/hermes/manual/config/harden-config.py:64-71 | the key-by-key loop computes the recursive merge, in any order of keys |
| ConfigContract.GetPathLoop | scripts/hermes/manual/config/verify-contract.py:65-71 | the walking loop computes the lookup of a path |
| ConfigRun.Run | scripts/hermes/manual/config/harden-config.py:205-283 | what each mode writes: nothing in check mode or on unreadable input, only what differs in a plain run, always the configuration in an upgrade |
| ConfigRun.RunTwice | scripts/hermes/manual/config/harden-config.py:230-279 | a second run changes neither file and adds no backup, at whatever later time |
| ConfigRun.WrittenConfigConverged | scripts/hermes/manual/config/harden-config.py:88-95 | a written configuration is a fixed point of the next run |
| ConfigRun.EffectiveExactly | scripts/hermes/manual/config/harden-config.py:88-95 | two documents count as unchanged if and only if they agree everywhere but at the time of the last change |
| ConfigRun.CheckedProfileVerifies | scripts/hermes/manual/config/verify-contract.py:74-115 | a passing check implies a verified configuration, and a verified environment if and only if the contract's values have no outer white space |
| ConfigRun.WrittenVerifiesPrecisely | scripts/hermes/manual/config/harden-config.py:205-283 | over all existing configurations and times, what was written verifies if and only if the contract is silent on the bookkeeping section, pins none of its three entries to another value, or is the list of their names, and no replaced path demands something else there |
| ConfigRun.PinnedProfileCounterexample | scripts/hermes/manual/config/harden-config.py:205-283 | a contract that sets the bookkeeping section fails verification right after it was applied |
| EnvFile.RenderEnv | scripts/hermes/manual/config/harden-config.py:161-183 | the loop computes the rendered text |
| EnvFile.RenderedReadsBack | scripts/hermes/manual/config/harden-config.py:161-183 | read back, the rewritten file binds every allowlisted key to its stripped value and every other key as before, for every clean allowlist and text |
| EnvFile.OtherLinesKept | scripts/hermes/manual/config/harden-config.py:174-179 | every line that assigns no allowlisted key stays unchanged at its place |
| EnvFile.CommentsKeptPrecisely | scripts/hermes/manual/config/harden-config.py:174-179 | all comments and blank lines of all files stay if and only if the allowlist has no empty key |
| EnvFile.RenderConverges | scripts/hermes/manual/config/harden-config.py:161-183 | rendering a rendered file changes nothing, duplicates and comments included |
| EnvFile.CheckablePrecisely | scripts/hermes/manual/config/harden-config.py:186-191 | some file passes the check if and only if keys and values can be written as one clean line each |
| EnvFile.ParseEnv | scripts/hermes/manual/config/verify-contract.py:54-62 | the loop computes the last binding of every key |
| EnvFile.CheckedEnvVerifies | scripts/hermes/manual/config/verify-contract.py:54-107 | a file that passes the check verifies if and only if the contract's values have no outer white space |
| EnvFile.PaddedValueCounterexample | scripts/hermes/manual/config/verify-contract.py:54-107 | a padded value passes the check and fails verification |
| Nevra.NormalizeDenotes | scripts/hermes/unattended/transaction.py:17-29 | the normal form denotes the same package |
| Nevra.NormalizeIdempotent | scripts/hermes/unattended/transaction.py:17-29 | normalizing twice is normalizing once |
| Nevra.NormalizeIdentifies | scripts/hermes/unattended/transaction.py:17-29 | two spellings have the same normal form if and only if name, epoch, version, release and architecture agree |
| Nevra.Accepts | scripts/hermes/unattended/transaction.py:17-29 | every name of four parts in the accepted characters, with or without an epoch of digits, is accepted and denotes its parts |
| Nevra.AcceptsOnly | scripts/hermes/unattended/transaction.py:17-29 | an accepted name is such a name |
| Inventory.ExpectedInventory | scripts/hermes/unattended/transaction.py:32-65 | accepts exactly the consistent transactions and predicts removing then adding |
| Inventory.ResolvedExactly | scripts/hermes/unattended/transaction.py:42-60 | a record is accepted if and only if its name is, an outgoing package has no path and another one an accepted path; it joins the set its action names |
| Inventory.PredictedExactly | scripts/hermes/unattended/transaction.py:61-65 | a package is predicted if and only if it was installed and no record removes or replaces it, or a record installs, upgrades or downgrades it |
| Inventory.BeforeExactly | scripts/hermes/unattended/transaction.py:36-39 | an inventory is accepted if and only if it ends its last line and lists only accepted names |
| Inventory.StoredIsFile | scripts/hermes/unattended/transaction.py:50-56 | an accepted package path names one RPM file in `packages` |
| Inventory.FileIsStored | scripts/hermes/unattended/transaction.py:50-56 | every such path is accepted as it is |
| Inventory.Collect | scripts/hermes/unattended/transaction.py:40-60 | the loop accepts if and only if no two records clash, and tracks the three sets |
| Inventory.PredictPermuted | scripts/hermes/unattended/transaction.py:32-65 | a permutation of the records changes neither acceptance nor predicted bytes nor stored paths |
| Inventory.RecordOrderIrrelevant | scripts/hermes/unattended/transaction.py:42-60 | permuted records resolve alike, to the same bag of entries |
| Inventory.NewlineKeepsOrder | scripts/hermes/unattended/gates.py:73-75 | terminating names by newlines keeps their order |
| Inventory.ObservedBytes | scripts/hermes/unattended/gates.py:73-75 | the observer hashes the sorted names, each terminated |
| Inventory.PredictorAgreesWithObserver | scripts/hermes/unattended/gates.py:73-75 | for any distinct listed names of ordinary characters, the observed bytes equal the predicted ones if and only if the listed packages are the predicted ones |
| Console.RunConsole | vm/hermes-luks-console.py:181-242 | for any chunking: each watch submission owns a reboot marker, a boundary and a prompt at rising stream positions after the previous submission's prompt; a one-shot run submits once if the prompt appears after some chunk and never otherwise; the longest buffer is within the limit |
| Console.Feed | vm/hermes-luks-console.py:207-238 | one pass does what the specification function says |
| Console.ArmedPass | vm/hermes-luks-console.py:233-242 | an armed gate submits exactly once if the normalized last 4096 bytes show the prompt, and otherwise only remembers them |
| Console.UnarmedPass | vm/hermes-luks-console.py:213-232 | a watcher that is not armed waits for the reboot marker, then for a boundary behind it, and arms exactly when it finds both; what follows is searched on |
| Console.PassInv | vm/hermes-luks-console.py:207-242 | one pass keeps the evidence invariant |
| Console.OneShotExactly | vm/hermes-luks-console.py:233-239 | a one-shot run submits if and only if the last 4096 bytes show the prompt after some chunk |
| Console.EveryBootSubmits | vm/hermes-luks-console.py:207-242 | a watcher fed any number of boots (marker, boundary, prompt, each ending its chunk) submits exactly once for each |
| Console.ControlSequenceStripped | vm/hermes-luks-console.py:62-63 | a complete control sequence (section 5.4 of ECMA-48) between plain text and anything else disappears, and nothing else does |
| Console.NormalizeSelects | vm/hermes-luks-console.py:62-63 | normalization only deletes bytes and keeps their order and positions |
| Console.SeeBoundaryInv | vm/hermes-luks-console.py:70-75 | cutting the buffer behind a boundary keeps all held evidence earlier than the rest |
| Manifest.RowsReadBack | toolbox/generate-migration-manifest.py:906-918 | parsing the rendered manifest returns exactly its rows, given no line separators, no blanks before the path and distinct paths |
| Manifest.IdentityReadBack | toolbox/generate-migration-manifest.py:921-938 | parsing the rendered manifest returns exactly its identity, given no line separators or tabs in it |
| Manifest.LinesReadBack | toolbox/generate-migration-manifest.py:801-903 | splitting the rendered text returns the lines it was joined from |
| Manifest.JoinSplits | toolbox/generate-migration-manifest.py:898-914 | splitting at most as often as there are separators undoes joining, blanks in the last part included |
| Manifest.ParseManifest | toolbox/generate-migration-manifest.py:906-918 | the loop computes the rows or the first error, as specified line by line |
| Manifest.ManifestExactly | toolbox/generate-migration-manifest.py:906-918 | a manifest is accepted if and only if every line is a comment or a row of seven fields and no path comes twice; it is then read as exactly its rows |
| Manifest.ParseIdentity | toolbox/generate-migration-manifest.py:921-938 | the loop computes the identity or the first error |
| Manifest.IdentityExactly | toolbox/generate-migration-manifest.py:921-938 | an identity is accepted if and only if every marked line gives one of the keys its value, none twice and none missing |
| ManifestVerify.GenerateThenVerify | toolbox/generate-migration-manifest.py:948-1067 | verifying what was generated from the same world reports no failure, with and without the other checkouts |
| ManifestVerify.Verify | toolbox/generate-migration-manifest.py:948-1067 | reports no failure if and only if every destination check and, with the checkouts, every source check holds; without failure every listed file is present and recorded with its hash and mode, and nothing else is |
| ManifestVerify.Classify | toolbox/generate-migration-manifest.py:667-743 | without problems the sorted rows are those of the listed paths in order; a problem is reported if and only if one exists |
| ManifestVerify.MismatchesExactly | toolbox/generate-migration-manifest.py:291-310 | every listed file known to index and working tree with different modes is reported, and every report is of such a file |
| ManifestVerify.IdentityAgrees | toolbox/generate-migration-manifest.py:754-766 | the identity computed from the rows equals the one recomputed from the tree, although both sort and count differently |
| ManifestVerify.TagsReadBack | toolbox/generate-migration-manifest.py:994-1047 | the tagged lines read back from the text are exactly the audit lines |
| Text.SplitJoin | toolbox/generate-migration-manifest.py:903-908 | `splitlines` undoes joining unbroken lines |

## Left out

- Foreign effects (virsh, podman, systemctl, SSH, restic, dnf, bootctl) are outcomes chosen by the environment.
- Digests, signatures, encryption, YAML, JSON and tar are identified with what they encode, or are arbitrary functions.
- Symbolic-link, ownership and permission checks on managed paths are not modelled beyond the modes and owners recorded.
- Regular expressions for console markers are arbitrary searches that return a proper span; for package names a hand-written matcher is used.
- Deployment.Run: health checks, the reboot timers and the files of the application are not part of this module; `HostFiles` has the files. Boot identifiers are numbers that grow, so "another boot" means a later one.
- Controller.Run: of the host it has the phases, their reboots and the keys; package, inventory and health conditions are outcomes of a request (`Deployment` has them). Requests take effect when sent or not at all, and the backup guard does not run in between. Its condition on rollbacks of a host already rolled back is a mark the host keeps; `RevokedKeys.SafeExactly` has the condition on the inputs.
- HostFiles.RunThenRollback: only the installer and the application's own `config.yaml` change files; the journal phase is an argument.
- CredentialBroker.Serve: the provider's account list (`check`) is not modelled; a deletion that took effect without a confirmation is an unconfirmed one.
- FixtureCleanup.Run: removing the domain removes its firmware variables and TPM with it; foreign domains sharing the fixture's resources are not modelled.
- SimpleInstaller.Run: covers the tracked files; the payload under the library directory, the credential, the account and the application's data are outside the undo log.
- ConfigContract.AppliedVerifies: YAML mappings have string keys and scalars are taken up to Python's equality; nested mappings are values, not shared objects.
- ConfigRun.Run: the `--runtime-check` mode and the atomic replacement of files are not modelled.
- Manifest.RowsReadBack: explanatory comment lines are arbitrary comments; the list of identity keys is a parameter required to be free of duplicates, tabs and line separators.
- ManifestVerify.Classify: how a file's provenance is determined (`source_state`, companions, relocations) is an argument; `dirty_entries` depends on git and is left out.
- Lifecycle.Run: the policy binding of an active run and the grant's expiry are part of the environment's choice.
- Certification scripts, preflight collectors, release building and signing, backup retention: long guard sequences that would add only easy members.
