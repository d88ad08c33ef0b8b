# Rustmote relay lifecycle, verified

Rustmote installs and updates a RustDesk relay on a remote server over SSH. This project models the
part of `rustmote-core` that does so, and proves what an operator relies on when a connection drops
or a container fails to start halfway through.

## What is modelled

- **The remote host** (`Shell`): a file tree, the compose text of the last successful `up`, and a
  trail of every simple command with the state it left. A schedule of arbitrary functions decides,
  step by step, which commands fail (tests for a file or directory included) and with what exit
  code, what a failing command leaves behind (partially decoded or partially copied files,
  directories made or removed), which replies are lost, what `find` lists and how long everything
  takes. Theorems hold for every schedule.
- **The command language** (`Commands`, `CommandText`, `Base64`, `Listing`): the builders print text, the host runs
  what a recogniser reads back from that text, and the round trip between the two is proved. The
  protocol never bypasses the printed line.
- **The protocol** (`Protocol`): bootstrap, check, update, rollback, health check and backup
  collection as functions of the world, branch for branch. `Lifecycle` holds the same operations as
  methods that send command lines to a mutable host, each proved equal to its function, so the
  theorems about the functions are theorems about the methods.
- **The theorems about it**: rollback and success (`UpdateTheorems`), every step of an update
  (`LiveFiles`, `Recovery`), any sequence of operations (`Lineage`, `Convergence`), when an update goes
  through (`Progress`, `ForeignNames`, `PathSafety`), what is decided and reported (`Decisions`,
  `Reports`, `Failures`), every command in order (`Transcripts`), the collector (`Collection`), and
  schedules that take each failing path (`Locality`, `Scenarios`, `BootstrapScenarios`).
- **Pure algorithms**: compose rewriting (`Compose`, `PinOrder`, `Render`, `Coverage`), the tag maximum
  (`Semver`), backup retention (`Retention`), remote paths and timestamps (`Paths`), validators.
- **The registry cache** (`RegistryCache`): concurrent calls as a transition system whose steps are
  the sections between two waits, and the same call as a method.
- **Keyed stores**: the discovery merge (`Discovery`) and the trust-on-first-use store (`KnownHosts`).

Strings are sequences of UTF-8 bytes. SSH, the HTTP registry, the TOML codec, the OS-release parser
and the clocks are parameters: `Schedule`, `Registry`, `Codec` and the functions of `Env`. The
codec is assumed to decode what it encoded only where a theorem says `IsFaithful`.

## Where the code and its documentation differ

The model follows the code. These are proved about it:

- The design rules ask for rollback attempts even with `--skip-backup`; the code makes none
  (`LiveFiles.NoBackupNoRollback`), and the error text still says the update was rolled back.
- A failing `docker compose pull` or `up` is not rolled back: the new files stay live
  (`LiveFiles.FailedStartLeavesNewFiles`).
- Nor is it tried again: the state file already names the new images, so later updates find nothing
  to do and the new version is never started (`Convergence.FailedStartNeverRetried`).
- Compose files are to be pinned by digest always; a template goes live unpinned if it mentions none of
  the newly chosen tags (`UpdateTheorems.UpdatePins`), and half pinned if it mentions some of them beside
  other tags (`UpdateTheorems.UpdateCovers`).
- The renderer is meant to replace every occurrence; two occurrences can overlap when a tag ends in a
  nonempty prefix of "image", and then one is lost (`Compose.CountPreserved`). In that case, and when
  one tag begins the other, the order of two pins shows (`PinOrder.OrderIrrelevant`).
- Bootstrap is to leave an existing install alone; `path_exists` reads every nonzero exit of `test -d` as
  "absent", so a test that fails over a directory that is there starts a fresh install on top of it
  (`Convergence.ExistingWritten`, `BootstrapScenarios.DirectoryCanHide`).
- A rollback brings back the live compose file it found, which after a failed start is one that never ran
  (`UpdateTheorems.RollbackRestores`, `Scenarios.RollbackStartsUnstarted`).
- Bootstrap is to be safe to run again. After a failed one that depends on what it left: a directory
  without a state file is refused for good, and a state file is reported as an existing install although
  the start failed (`Convergence.FailedBootstrapRetry`, `Convergence.ForeignForever`,
  `BootstrapScenarios.BootstrapCanStop`).
- Cache keys join repository and tag with a colon, so they collide for arguments with colons
  (`RegistryCache.ColonFreeKeys`, `RegistryCache.KeysCollide`). Validated repositories and tags have
  none, but `resolve_digest` runs before validation.
- From year 10000 on chrono prints a '+', which the path allowlist refuses: updates with a backup
  then stop before they write (`Paths.PlacesAccepted`, `PathSafety.CommandsAccepted`).
- A foreign `pre-update-*` directory whose name the allowlist refuses makes an update fail after the new
  version is live and healthy, exactly when the collector picks it (`ForeignNames.ForeignNameFailsUpdate`,
  `ForeignNames.MeetsIsForeign`, `Progress.UpdateGoesThrough`, `Scenarios.RefusedNameCanFail`).

## Model

| member | source | states |
|---|---|---|
| UpdateTheorems.RollbackRestores | crates/rustmote-core/src/relay_lifecycle/mod.rs:430-529 | for every schedule of failures: an update with a backup that returns RelayHealthCheckFailed found both live files, leaves their contents as it found them, and the last successful `up` ran on the old compose text; that is the text that was running before exactly if the live compose file held it |
| UpdateTheorems.UpdateSucceeds | crates/rustmote-core/src/relay_lifecycle/mod.rs:430-541 | success with changed=true: the live files are the rendered compose text and the encoded new state, that text is running, and a full healthy probe round is followed by nothing but garbage collection; success with changed=false: every step was a read |
| Decisions.UpdateDecides | crates/rustmote-core/src/relay_lifecycle/mod.rs:138-156 | a successful update reports a change exactly when, for some pin of the state file, the registry gives another digest than the pinned one for the tag to go for, whatever the tags are; otherwise it reports the state as it is, no backup and no deletions |
| Decisions.CheckReports | crates/rustmote-core/src/relay_lifecycle/mod.rs:388-416 | a check reports one line for each pin of the state file, in order: the pin's service, repository, tag and digest, the latest listed tag (or its own if none is numeric) and the registry's digest for that |
| Decisions.CheckDecides | crates/rustmote-core/src/relay_lifecycle/mod.rs:154-156 | the check finds an update exactly when such a digest differs |
| Decisions.UpdateReports | crates/rustmote-core/src/relay_lifecycle/mod.rs:487-541 | the new state keeps the bootstrap time and version, is stamped with the update's time, and moves each pin to that tag and digest; the reported backup is the one named by that time, or none with skip_backup |
| Decisions.UpdateRefused | crates/rustmote-core/src/relay_lifecycle/mod.rs:435-437 | an unconfirmed update fails with RelayUpdateNotConfirmed without reading anything, and only such a one does |
| Failures.UpdateErrorMeans | crates/rustmote-core/src/relay_lifecycle/mod.rs:430-541 | a failed update was not confirmed, found no readable state, no answer or an invalid pin, and then neither live file nor what is running was touched at any step; or a command failed, was refused or lost; or the health check failed |
| Failures.UnhealthyWithoutBackup | crates/rustmote-core/src/relay_lifecycle/mod.rs:518-528 | with skip_backup a failed health check is reported only on a last probe that was answered with a failure, not on a lost connection |
| Failures.RolledBackProbed | crates/rustmote-core/src/relay_lifecycle/mod.rs:671-688 | with a backup the restored version has been probed by then: the run ends with a full healthy round or a failed probe |
| Failures.SnapshotNotFatal | crates/rustmote-core/src/relay_lifecycle/mod.rs:472-484 | a reported failure of docker compose config does not fail the backup |
| Failures.SnapshotSaved | crates/rustmote-core/src/relay_lifecycle/mod.rs:472-484 | and when it goes through the backup holds its output |
| Decisions.LiveReferences | crates/rustmote-core/src/relay_lifecycle/mod.rs:833-850 | in the live compose file after a changing update every "image: repo:tag" of a pin goes on with "@" and its digest (for pins that can be written in any order) |
| Reports.DeletionsReported | crates/rustmote-core/src/relay_lifecycle/mod.rs:707-731 | the reported deletions, read off the unsorted listing: the directories more than seven days old that at least three others precede, newest first and in listing order at equal times |
| Transcripts.UpdateTranscript | crates/rustmote-core/src/relay_lifecycle/mod.rs:430-541 | the simple commands a successful changing update makes the host run, in order and none besides: the check, the backup if wanted, the state again, the two writes, the pull and the start, probes, the listing, the reported deletions |
| Transcripts.RollbackTranscript | crates/rustmote-core/src/relay_lifecycle/mod.rs:430-529 | and those of an update rolled back: after the probes both copies back, the compose text first, the start, and probes again |
| UpdateTheorems.UpdatePins | crates/rustmote-core/src/relay_lifecycle/mod.rs:487-512 | after a changing update every reference to a pinned image in the live compose file carries its digest (for pins that can be written in any order), and the template goes live unpinned exactly when it mentions none of the new tags |
| Recovery.BackupUntilCollected | crates/rustmote-core/src/relay_lifecycle/mod.rs:453-516 | from the moment both backup copies succeeded, at every later step of the run, whatever fails and whatever is collected, the backup directory holds the exact compose and state files the update found until that directory is removed; and every removal in the run is of an entry the collector picked |
| Recovery.PicksIsCollected | crates/rustmote-core/src/relay_lifecycle/mod.rs:690-731 | read off the listing of the collector's own step: a backup is picked exactly when it stands past the first three of the newest-first order with a time before the cutoff |
| Recovery.BackupSurvives | crates/rustmote-core/src/relay_lifecycle/mod.rs:453-516 | a run's own backup that its collector does not pick from the listing holds those files at every step to the end |
| Recovery.RecentBackupSurvives | crates/rustmote-core/src/relay_lifecycle/mod.rs:707-731 | so does one that the listing shows at or after the seven-day cutoff |
| Recovery.EarlierBackupUntilCollected | crates/rustmote-core/src/relay_lifecycle/mod.rs:453-516 | an update in another second leaves the saved compose and state files of every earlier backup untouched at every step, until its collector removes that directory |
| Recovery.EarlierBackupStays | crates/rustmote-core/src/relay_lifecycle/mod.rs:453-516 | and to the end if the listing does not have it picked |
| LiveFiles.LiveOldOrNew | crates/rustmote-core/src/relay_lifecycle/mod.rs:430-541 | at every step of every update, whatever fails, a live file holds exactly its old contents or exactly what the update means to write, unless a `cp` onto that very file was torn halfway before (only a rollback runs one); an update that gives up before knowing what to write never touches it |
| LiveFiles.NoBackupNoRollback | crates/rustmote-core/src/relay_lifecycle/mod.rs:518-528 | with skip_backup the same RelayHealthCheckFailed error leaves the new files live and running |
| LiveFiles.FailedStartLeavesNewFiles | crates/rustmote-core/src/relay_lifecycle/mod.rs:499-516 | a pull or `up` that fails after both writes ends the update with that error and the new files live; if the host reported the failure, the last successful `up` is still the old one |
| Convergence.FailedStartNeverRetried | crates/rustmote-core/src/relay_lifecycle/mod.rs:388-516 | after such a failure, with an unchanged registry, every later update, whatever its options and whatever updates, checks and bootstraps that see the install directory came in between, only reads and reports no change: the new version is never started |
| Lineage.OneOrigin | crates/rustmote-core/src/relay_lifecycle/mod.rs:487-512 | over any sequence of bootstraps, checks and updates with any failures, from a host that never had a state file, one origin (bootstrap time, version, service list in order, repositories) covers every state file ever live or backed up, at every step: a backed-up one until a `cp` onto it is torn halfway, all of them until one onto the live file is torn or a `test -d` hides the install directory |
| Lineage.SameOrigin | crates/rustmote-core/src/relay_lifecycle/mod.rs:487-512 | any two such state files, at any two steps, decode to the same origin, and every pin in them passes the validators and carries a digest the registry returned for that repository and tag |
| Scenarios.BackupCanTear | crates/rustmote-core/src/relay_lifecycle/mod.rs:453-484 | where the two results above stop: for every calm host on which an update with a backup goes ahead, and any bytes, a schedule, different in one step, under which the update fails and leaves just these bytes as the saved state file, the live one untouched |
| Scenarios.RollbackCanTear | crates/rustmote-core/src/relay_lifecycle/mod.rs:671-688 | and one, different in two steps, under which the health check fails and the rollback leaves just these bytes as the live state file |
| Convergence.UpdateConverges | crates/rustmote-core/src/relay_lifecycle/mod.rs:388-451 | with an unchanged registry, after a successful update no sequence of updates, checks and bootstraps that see the install directory changes anything: a check finds nothing, also when no listed tag is numeric, and an update with any options only reads, reports no change, and can fail only for a missing confirmation, an unreachable host or a test that hides the state file |
| Convergence.NothingWrittenUnprepared | crates/rustmote-core/src/relay_lifecycle/mod.rs:282-330 | bootstrap only reads until every digest is resolved and the compose text is rendered |
| Convergence.ExistingNeverWritten | crates/rustmote-core/src/relay_lifecycle/mod.rs:296-318 | bootstrap never writes when the install directory exists, whatever is in it, if no `test -d` reports it as missing |
| Convergence.ExistingWritten | crates/rustmote-core/src/relay_lifecycle/mod.rs:585-593 | and exactly when it does: the test reported the directory as missing, every digest resolved and the compose text was rendered |
| Convergence.FreshSucceeds | crates/rustmote-core/src/relay_lifecycle/mod.rs:320-374 | a successful fresh bootstrap has installed exactly the state and compose text it prepared, that text is running, and a full healthy probe round is followed by nothing but reads |
| Failures.BootstrapErrorMeans | crates/rustmote-core/src/relay_lifecycle/mod.rs:282-375 | a bootstrap that fails other than by a command or the health check has written nothing; one that fails the health check leaves what it prepared installed and running |
| Reports.PreparedSpelled | crates/rustmote-core/src/relay_lifecycle/mod.rs:320-340 | what a fresh bootstrap prepares: a pin for each service in order, of the one repository and tag, with the registry's digest and the time, in a state that was never updated |
| Reports.FreshLeaves | crates/rustmote-core/src/relay_lifecycle/mod.rs:338-359 | after it succeeds the environment file is the caller's text, and the install, data and backups directories exist |
| Reports.KeyReported | crates/rustmote-core/src/relay_lifecycle/mod.rs:597-601 | a reported public key is the contents of data/id_ed25519.pub on the host at the end; on a host where nothing fails it is missing exactly if that file is |
| Reports.SystemReported | crates/rustmote-core/src/relay_lifecycle/mod.rs:614-619 | the reported system is the caller's hint, or what /etc/os-release says |
| Reports.DockerVerdict | crates/rustmote-core/src/relay_lifecycle/mod.rs:621-648 | the docker verdict by the exit codes of the three commands, each asked only as far as needed |
| Transcripts.FreshTranscript | crates/rustmote-core/src/relay_lifecycle/mod.rs:338-374 | the simple commands a fresh install makes the host run, in order and none besides: the three directories, the three files, the start, probes, the key |
| Convergence.BootstrapTwice | crates/rustmote-core/src/relay_lifecycle/mod.rs:282-375 | after a successful fresh bootstrap a second one, with any options, from which no test hides the directory, only reads, and if it gets through it returns already_installed and the identical state; foreign only if a test hid the state file |
| Convergence.BootstrapVerdict | crates/rustmote-core/src/relay_lifecycle/mod.rs:282-375 | every bootstrap on every host: its survey fails and nothing is written; or, without the directory or with a test that hid it, it is a fresh install; or it writes nothing and gives the verdict on what is there |
| Convergence.FailedBootstrapLeaves | crates/rustmote-core/src/relay_lifecycle/mod.rs:320-374 | a failed bootstrap of a host without a state file changed nothing, or began the install it prepared and left no state file or exactly the prepared one |
| Convergence.FailedBootstrapRetry | crates/rustmote-core/src/relay_lifecycle/mod.rs:282-375 | the retry of a failed bootstrap is decided by two facts about the host it left, as the tests show them: no directory, a fresh install; a directory without a state file, a foreign install; a state file, the failed install reported as already there, also when `up` or the health check failed |
| Convergence.ForeignForever | crates/rustmote-core/src/relay_lifecycle/mod.rs:299-304 | a directory without a state file stays exactly as it is through any sequence of bootstraps, checks and updates in which no `test -d` hides it |
| Convergence.ExistingVerdict | crates/rustmote-core/src/relay_lifecycle/mod.rs:299-318 | over an existing directory: foreign exactly when there is no state file or a test hid it; a parse error only for an unreadable one; otherwise its state; or the host could not be reached |
| BootstrapScenarios.BootstrapCanStop | crates/rustmote-core/src/relay_lifecycle/mod.rs:328-364 | for every calm host and each of three places there is a schedule, different in one step, under which bootstrap stops there and leaves no directory, the directory without a state file, or the complete state file |
| BootstrapScenarios.DirectoryCanHide | crates/rustmote-core/src/relay_lifecycle/mod.rs:585-593 | for every calm host with an install, whatever it is, there is a schedule, different in the one `test -d`, under which bootstrap succeeds as a fresh install and its compose text and state replace what was there |
| Scenarios.PullCanFail | crates/rustmote-core/src/relay_lifecycle/mod.rs:499-516 | for every calm host on which an update goes ahead there is a schedule, different in one step, under which the pull fails and the new files stay live with the old version running |
| Scenarios.HealthCanFail | crates/rustmote-core/src/relay_lifecycle/mod.rs:518-528 | likewise a schedule under which the health check fails: with a backup the update has been rolled back, with skip_backup the new version stays |
| Scenarios.RollbackStartsUnstarted | crates/rustmote-core/src/relay_lifecycle/mod.rs:499-529 | after a failed pull or start, when the registry moves on: a schedule under which the next update fails its health check and its rollback starts the compose text that never ran |
| Progress.UpdateGoesThrough | crates/rustmote-core/src/relay_lifecycle/mod.rs:430-541 | on a host that runs every command and loses no reply, an update of an accepted install path succeeds exactly when it is confirmed, the state file is readable, every pin resolves, and, if there is something to update, the new pins are valid, a wanted backup can be taken (a live compose file, a year up to 9999) and no directory with a refused name is among those the collector picks |
| ForeignNames.ForeignNameFailsUpdate | crates/rustmote-core/src/relay_lifecycle/mod.rs:720-728 | a refused name among the entries the collector picks fails the update, with the new version live, running and healthy |
| ForeignNames.MeetsIsForeign | crates/rustmote-core/src/relay_lifecycle/mod.rs:707-728 | read off the listing: that happens exactly when past the first three and before the cutoff stands a directory with a character outside the allowlist in its name |
| ForeignNames.NoRefusedDirNoForeign | crates/rustmote-core/src/relay_lifecycle/mod.rs:707-728 | on a host whose backups hold no directory with a refused name, no update's collector meets one, whatever else happens |
| Scenarios.RefusedNameCanFail | crates/rustmote-core/src/relay_lifecycle/mod.rs:707-728 | for every calm host on which an update goes ahead and every right listing of its backups that meets the condition, a schedule, different only in what `find` lists, under which the update fails with the new version live, running and healthy |
| ForeignNames.RefusedName | crates/rustmote-core/src/relay_lifecycle/commands.rs:32-48 | below an accepted install path a listed directory is refused exactly for such a character |
| ForeignNames.ForeignNameExample | crates/rustmote-core/src/relay_lifecycle/mod.rs:707-728 | a listing of four directories, the oldest named "pre-update-my notes", meets the condition |
| Progress.FreshGoesThrough | crates/rustmote-core/src/relay_lifecycle/mod.rs:320-374 | on such a host a fresh bootstrap succeeds exactly when every digest resolves and the compose text can be rendered |
| HealthTime.HealthCheckBounded | crates/rustmote-core/src/relay_lifecycle/mod.rs:650-669 | for interval I > 0 and timeout T, at least one and at most ceil(T/I)+1 rounds for every probe schedule; failure only once T has passed, success only after one round in which every port answered |
| HealthTime.GivesUpOnTime | crates/rustmote-core/src/relay_lifecycle/mod.rs:663-667 | after a failed first probe the check gives up exactly if the timeout has passed by then |
| UpdateTheorems.HealthyMeansOneRound | crates/rustmote-core/src/relay_lifecycle/mod.rs:650-669 | the check passes only on one single round of its own in which both ports answered, as the last thing that happened |
| Collection.GcExact | crates/rustmote-core/src/relay_lifecycle/mod.rs:690-731 | a collection that succeeds returns exactly the paths the retention rule picks, in order, and the host's tree is the old one without those directories: nothing more, nothing less |
| Collection.CollectTwice | crates/rustmote-core/src/relay_lifecycle/mod.rs:690-731 | after a collection that read its listing, collecting again at the same time deletes nothing and changes nothing, as long as the directories left keep their times; one that could not read it deleted nothing itself |
| UpdateFacts.GcLeavesLive | crates/rustmote-core/src/relay_lifecycle/mod.rs:690-731 | the collector leaves the live compose, state, env and key files as they are at every step |
| UpdateFacts.DoomedAreBackups | crates/rustmote-core/src/relay_lifecycle/mod.rs:690-731 | everything the collector picks was listed, is a direct entry of the backups directory, and is older than the cutoff |
| UpdateFacts.BackupStaysInside | crates/rustmote-core/src/relay_lifecycle/mod.rs:458-484 | taking a backup changes no file outside its own directory, at any step |
| PathSafety.CommandsAccepted | crates/rustmote-core/src/relay_lifecycle/mod.rs:745-789 | below an accepted install path every command of the protocol but the deletions is accepted; those that name a backup exactly up to year 9999 |
| PathSafety.UpdatePathErrors | crates/rustmote-core/src/relay_lifecycle/mod.rs:430-541 | an update of an accepted install path that ends in a path error has written nothing, or its collector met a foreign directory with a refused name |
| PathSafety.BootstrapNoPathError | crates/rustmote-core/src/relay_lifecycle/mod.rs:282-375 | a bootstrap of an accepted install path never ends in a path error |
| Lifecycle.RelayLifecycle.Send | crates/rustmote-core/src/relay_lifecycle/commands.rs:142-284 | sending a builder's command line to the host does exactly what the command means |
| Lifecycle.RelayLifecycle.LoadState | crates/rustmote-core/src/relay_lifecycle/mod.rs:603-612 | the method changes the host and returns exactly as the protocol function says |
| Lifecycle.RelayLifecycle.CheckUpdates | crates/rustmote-core/src/relay_lifecycle/mod.rs:388-416 | the loop over the pins yields the protocol function's list, tag choice and first error |
| Lifecycle.RelayLifecycle.TakeBackup | crates/rustmote-core/src/relay_lifecycle/mod.rs:458-484 | the backup sequence, with its non-fatal config snapshot, step for step |
| Lifecycle.RelayLifecycle.HealthCheck | crates/rustmote-core/src/relay_lifecycle/mod.rs:650-669 | the probe loop is the protocol function, and terminates |
| Lifecycle.RelayLifecycle.Rollback | crates/rustmote-core/src/relay_lifecycle/mod.rs:671-688 | the two restoring copies, `up` and the health check, step for step |
| Lifecycle.RelayLifecycle.GcBackups | crates/rustmote-core/src/relay_lifecycle/mod.rs:690-731 | the deletion loop over the sorted list does what the retention rule says, one `rm` at a time |
| Lifecycle.RelayLifecycle.Deploy | crates/rustmote-core/src/relay_lifecycle/mod.rs:487-541 | the writing half of an update: reload, render, write, pull, start, settle |
| Lifecycle.RelayLifecycle.Update | crates/rustmote-core/src/relay_lifecycle/mod.rs:430-541 | the whole update is the protocol function of the host, registry and clocks |
| Lifecycle.RelayLifecycle.EnsureDockerStack | crates/rustmote-core/src/relay_lifecycle/mod.rs:621-648 | the docker checks and their distinct errors |
| Lifecycle.RelayLifecycle.Fresh | crates/rustmote-core/src/relay_lifecycle/mod.rs:320-374 | digest resolution, rendering and the install sequence, step for step |
| Lifecycle.RelayLifecycle.Bootstrap | crates/rustmote-core/src/relay_lifecycle/mod.rs:282-375 | the whole bootstrap is the protocol function |
| ShellFacts.WriteIsAtomic | crates/rustmote-core/src/relay_lifecycle/commands.rs:218-225 | interpreting the command of write_file, for every path and all bytes: at every step the file holds its old contents or exactly the new bytes, and success means the new bytes |
| ShellFacts.ExecReturns | crates/rustmote-core/src/relay_lifecycle/mod.rs:578-581 | what a sent command returns: a lost connection, success, or the exit code of its last step; a refused one never reaches the host |
| Shell.DoRunsTheCommandLine | crates/rustmote-core/src/relay_lifecycle/commands.rs:142-284 | running the printed line through the recogniser is the command it was printed for; a refused argument never reaches the host |
| Base64.RoundTrip | crates/rustmote-core/src/relay_lifecycle/commands.rs:218-225 | decoding an encoded byte string gives it back (section 4 of RFC 4648) |
| Base64.Canonical | crates/rustmote-core/src/relay_lifecycle/commands.rs:218-225 | the decoder accepts canonical texts only: re-encoding its answer gives the text back |
| Base64.OutputAlphabet | crates/rustmote-core/src/relay_lifecycle/commands.rs:218-225 | the output stays inside the base64 alphabet and its padding |
| Base64.EncodeSpelled | crates/rustmote-core/src/relay_lifecycle/commands.rs:218-225 | over the 64 characters of RFC 4648, written out: each full group of three bytes and its four characters are the same number, and a short last group is shifted and padded with "=" |
| Base64.Encode | crates/rustmote-core/src/relay_lifecycle/commands.rs:218-225 | the output has the padded length ceil(n/3)*4 |
| Commands.ParseBuild | crates/rustmote-core/src/relay_lifecycle/commands.rs:142-284 | reading back any builder's line recovers the command kind and its arguments |
| Commands.BuildersInjective | crates/rustmote-core/src/relay_lifecycle/commands.rs:142-284 | two builders print the same line only for the same command and arguments, up to reading /etc/os-release |
| Commands.OsReleaseIsCat | crates/rustmote-core/src/relay_lifecycle/commands.rs:142-201 | read_os_release and cat_file of that path print the same line |
| Commands.BuildAccepts | crates/rustmote-core/src/relay_lifecycle/commands.rs:165-284 | a builder fails exactly on a path the allowlist refuses, and names that path |
| CommandText.PathCommandLines | crates/rustmote-core/src/relay_lifecycle/commands.rs:170-200 | the exact texts of test -d, test -f, mkdir -p, cat and rm -rf, for every accepted path |
| CommandText.CopyCommandLine | crates/rustmote-core/src/relay_lifecycle/commands.rs:206-210 | the exact text of cp -a |
| CommandText.WriteCommandLine | crates/rustmote-core/src/relay_lifecycle/commands.rs:218-225 | the exact text of a file write: base64 through a temporary file, then mv and chmod 0644 |
| CommandText.FixedCommandLines | crates/rustmote-core/src/relay_lifecycle/commands.rs:142-164 | the exact texts of the four commands without a path |
| CommandText.ComposeCommandLines | crates/rustmote-core/src/relay_lifecycle/commands.rs:231-253 | the exact texts of docker compose up, pull and config inside the install directory |
| CommandText.StatusCommandLines | crates/rustmote-core/src/relay_lifecycle/commands.rs:259-273 | and of ps and logs |
| CommandText.ProbeCommandLine | crates/rustmote-core/src/relay_lifecycle/commands.rs:282-287 | the exact text of a probe, with the port in decimal |
| CommandText.FindCommandLine | crates/rustmote-core/src/relay_lifecycle/mod.rs:697-702 | the exact text of the listing |
| Validators.RemotePathSpelled | crates/rustmote-core/src/relay_lifecycle/commands.rs:32-48 | a path is accepted exactly if it is absolute, has only letters, digits and "/._-", and no component ".." |
| Validators.RepoSpelled | crates/rustmote-core/src/relay_lifecycle/commands.rs:55-74 | a repository: 1 to 255 lower-case letters, digits and "._-/", none of these at either end, no component ".." |
| Validators.TagSpelled | crates/rustmote-core/src/relay_lifecycle/commands.rs:80-93 | a tag: 1 to 128 letters, digits and "_.-", not starting with "." or "-" |
| Validators.DigestSpelled | crates/rustmote-core/src/relay_lifecycle/commands.rs:100-112 | a digest: "sha256:" and 64 lower-case hexadecimal digits |
| Validators.ImageRefRoundTrip | crates/rustmote-core/src/relay_lifecycle/commands.rs:293-298 | a reference is built exactly for a valid repository, tag and digest, and splitting it at the first ':' and the next '@' returns them |
| Validators.ImageRefInjective | crates/rustmote-core/src/relay_lifecycle/commands.rs:293-298 | two built references are equal only for the same repository, tag and digest |
| Paths.PlacesDistinct | crates/rustmote-core/src/relay_lifecycle/mod.rs:745-789 | no two derived paths, nor their temporary files, name the same place; backups of different seconds share nothing |
| Paths.PlacesAccepted | crates/rustmote-core/src/relay_lifecycle/mod.rs:745-789 | every derived path below an accepted install path is accepted, the dated ones exactly up to year 9999 |
| Paths.JoinAccepted | crates/rustmote-core/src/relay_lifecycle/mod.rs:746-750 | a joined path is accepted exactly when its base is (or is empty) |
| Paths.BackupNameInjective | crates/rustmote-core/src/relay_lifecycle/mod.rs:784-789 | two instants share a backup name exactly when they fall in the same second |
| Paths.BackupNameSpelled | crates/rustmote-core/src/relay_lifecycle/mod.rs:784-789 | for years up to 9999 the name is "pre-update-" and the fields of the time in order, four digits for the year and two for each other, between "-", "T" and "Z" |
| Paths.SignedYear | crates/rustmote-core/src/relay_lifecycle/mod.rs:784-789 | any other year stands with its sign |
| Paths.PathsSpelled | crates/rustmote-core/src/relay_lifecycle/mod.rs:746-789 | every path of the orchestrator, for an install path without a slash at its end |
| Paths.TrailingSlash | crates/rustmote-core/src/relay_lifecycle/mod.rs:746-750 | slashes at the end of a base do not count |
| Paths.TempElsewhere | crates/rustmote-core/src/relay_lifecycle/commands.rs:218-225 | the temporary file of a write is never the file itself, for every path |
| Listing.ListingRoundTrip | crates/rustmote-core/src/relay_lifecycle/mod.rs:697-717 | reading the output of `find -printf` recovers every listed directory and its whole seconds, in order |
| Listing.LineReads | crates/rustmote-core/src/relay_lifecycle/mod.rs:707-714 | a line counts exactly if the text before the first dot before its first tab is a signed 64-bit number; the path is everything behind that tab |
| Listing.LinesSpelled | crates/rustmote-core/src/relay_lifecycle/mod.rs:704-706 | lines end with LF or CR LF; a last one may lack that |
| Listing.NoTabNoLine | crates/rustmote-core/src/relay_lifecycle/mod.rs:707-714 | a line without a tab does not count |
| Listing.LinesAdd | crates/rustmote-core/src/relay_lifecycle/mod.rs:704-714 | the lines that count give their entries one after the other |
| Listing.OneLine | crates/rustmote-core/src/relay_lifecycle/mod.rs:704-714 | and each of the others gives none |
| Compose.StripUndoesInsert | crates/rustmote-core/src/relay_lifecycle/mod.rs:833-850 | taking the inserted digests out again gives the template back: nothing else changed |
| Compose.InsertMarksAll | crates/rustmote-core/src/relay_lifecycle/mod.rs:833-850 | after the replacement every occurrence of the searched text carries the digest |
| Compose.InsertCreatesNone | crates/rustmote-core/src/relay_lifecycle/mod.rs:833-850 | after the replacement there are exactly as many occurrences as were replaced: inserting creates none |
| Compose.CountPreserved | crates/rustmote-core/src/relay_lifecycle/mod.rs:833-850 | no template loses an occurrence exactly when the tag does not end in a nonempty prefix of "image" |
| PinOrder.OrderIrrelevant | crates/rustmote-core/src/relay_lifecycle/mod.rs:833-850 | two pins can be written in either order, on every template, exactly when they are equal or neither tag begins the other in the same repository nor ends in a prefix of "image" |
| Render.RenderComposeWithPins | crates/rustmote-core/src/relay_lifecycle/mod.rs:833-850 | the loop with its `seen` set computes the specification function |
| Render.RenderInserts | crates/rustmote-core/src/relay_lifecycle/mod.rs:833-850 | rendering fails exactly on an invalid pin, and otherwise applies each distinct pin once |
| Render.RenderPermuted | crates/rustmote-core/src/relay_lifecycle/mod.rs:833-850 | for compatible pins, the order and repetition of pins do not change the result |
| Render.RenderPinsEverything | crates/rustmote-core/src/relay_lifecycle/mod.rs:833-850 | for compatible pins, no reference to a pinned image is left without its digest |
| Render.RenderOtherTag | crates/rustmote-core/src/relay_lifecycle/mod.rs:833-850 | rendering returns the template unchanged exactly when it mentions none of the pinned tags |
| Coverage.RenderCovers | crates/rustmote-core/src/relay_lifecycle/mod.rs:833-850 | for compatible pins whose tags end in no prefix of "image": every `image: repo:` reference of a repository carries a digest exactly when every one in the template names a pinned tag |
| UpdateTheorems.UpdateCovers | crates/rustmote-core/src/relay_lifecycle/mod.rs:487-512 | the same of the live compose file after a changing update |
| Semver.PickLatest | crates/rustmote-core/src/relay_lifecycle/mod.rs:856-868 | the loop computes the specification function |
| Semver.LessIsLexicographic | crates/rustmote-core/src/relay_lifecycle/mod.rs:861-864 | the comparison of vectors is the lexicographic order: a proper prefix, or smaller at the first difference |
| Semver.PicksLatest | crates/rustmote-core/src/relay_lifecycle/mod.rs:856-868 | None exactly when no tag parses; otherwise the first tag such that no other vector comes after its own in that order |
| Semver.PicksFirstMaximum | crates/rustmote-core/src/relay_lifecycle/mod.rs:856-868 | None exactly when no tag parses; otherwise the first tag whose vector is the lexicographic maximum |
| Semver.PickPermuted | crates/rustmote-core/src/relay_lifecycle/mod.rs:856-868 | permuting the tags cannot change the chosen vector |
| Semver.ParsesExactly | crates/rustmote-core/src/relay_lifecycle/mod.rs:870-881 | a tag parses exactly when each component is digits after an optional "+", of a value within 64 bits, and its vector holds these values in order |
| Text.LeadingDigit | crates/rustmote-core/src/relay_lifecycle/mod.rs:870-881 | the value of a numeral: each digit counts its place in "0123456789" times its power of ten |
| Text.DecimalEnds | crates/rustmote-core/src/relay_lifecycle/commands.rs:282-287 | a printed number ends with its last digit and has no leading zero |
| Text.JoinSplit | crates/rustmote-core/src/relay_lifecycle/mod.rs:870-876 | the parts of a split, joined again, are the text |
| Retention.SortFacts | crates/rustmote-core/src/relay_lifecycle/mod.rs:716-717 | the sort is a stable permutation, newest first |
| Retention.RetentionPlan | crates/rustmote-core/src/relay_lifecycle/mod.rs:719-731 | deletions are a suffix of the sorted order: exactly the entries past the first three and older than the cutoff; at least min(3, n) survive |
| Retention.DoomedByRank | crates/rustmote-core/src/relay_lifecycle/mod.rs:716-731 | an entry is deleted exactly if it is before the cutoff and at least three precede it: later ones, and those of the same time listed before it |
| Retention.DeletedHaveNewerSurvivors | crates/rustmote-core/src/relay_lifecycle/mod.rs:719-731 | every deleted backup is older than the cutoff and has three survivors at least as new |
| Retention.SecondRunDeletesNothing | crates/rustmote-core/src/relay_lifecycle/mod.rs:719-731 | planning again over the survivors, in any order, deletes nothing |
| RegistryCache.EveryRunExplained | crates/rustmote-core/src/registry_client.rs:437-496 | in every interleaving of calls, under any clock, each cache entry holds an answer the registry gave for its own key, stamped with the clock reading of the call that asked; every hit was such an entry, fresh at the caller's reading |
| RegistryCache.EntriesNotBackdated | crates/rustmote-core/src/registry_client.rs:437-496 | under a clock that does not go back, the request behind each entry began no earlier than the entry's cached_at |
| RegistryCache.HitsAreRecent | crates/rustmote-core/src/registry_client.rs:437-496 | under such a clock every hit returns an answer whose request began less than the TTL before the caller read the clock, for the very repository and tag asked for if neither contains ':' |
| RegistryCache.SlowCallOverwrites | crates/rustmote-core/src/registry_client.rs:437-461 | a slow call does replace a newer entry by its own older one, for all queries, answers and times |
| RegistryCache.ColonFreeKeys | crates/rustmote-core/src/registry_client.rs:191-193 | a digest key belongs to one repository and tag exactly when neither contains ':' |
| RegistryCache.KeysCollide | crates/rustmote-core/src/registry_client.rs:191-193 | two different image references with the same key |
| RegistryCache.PutThenLookup | crates/rustmote-core/src/registry_client.rs:139-188 | a write is what later lookups of its key see while fresh, and no other key notices it |
| RegistryCache.LookupHits | crates/rustmote-core/src/registry_client.rs:139-201 | a lookup hits exactly if the key is there and the TTL is beyond chrono's range or not yet over, and returns what is there |
| RegistryCache.EntrySpelled | crates/rustmote-core/src/registry_client.rs:191-193 | tags are kept under the repository's name, a digest under "repo:tag" |
| RegistryCache.FreshIsServed | crates/rustmote-core/src/registry_client.rs:437-472 | in every interleaving a call that looks while an entry of its key is younger than the TTL, at the call's clock reading, ends with that entry's answer, asks nobody and writes nothing |
| RegistryCache.WrittenIsServed | crates/rustmote-core/src/registry_client.rs:437-461 | after a call wrote its answer, the next one with the same key is served it until the TTL has passed since the first one's clock reading |
| RegistryCache.CacheStore.PutTagList | crates/rustmote-core/src/registry_client.rs:170-178 | the whole new store |
| RegistryCache.CacheStore.TagListIfFresh | crates/rustmote-core/src/registry_client.rs:139-152 | the tags of the repository exactly if present and younger than the TTL |
| RegistryCache.CacheStore.DigestIfFresh | crates/rustmote-core/src/registry_client.rs:155-168 | the digest under "repo:tag" exactly if present and younger than the TTL |
| RegistryCache.AloneIs | crates/rustmote-core/src/registry_client.rs:437-461 | an uninterrupted call: a hit asks nobody and writes nothing; a miss stores and returns the answer; a failed save returns an error but keeps the entry |
| RegistryCache.RegistryClient.ListTags | crates/rustmote-core/src/registry_client.rs:437-446 | the method, run alone, is the interleaving model's four steps in a row |
| RegistryCache.RegistryClient.ResolveDigest | crates/rustmote-core/src/registry_client.rs:451-461 | likewise for digests |
| Discovery.MergeResults | crates/rustmote-core/src/discovery.rs:372-413 | the output is strictly sorted by address, its addresses are exactly those of the three sources, each with the first name and first MAC seen and the known-server flag |
| Discovery.MergeSorted | crates/rustmote-core/src/discovery.rs:372-413 | the list goes up through the IPv4 and then the IPv6 addresses |
| Discovery.MergeListed | crates/rustmote-core/src/discovery.rs:372-413 | an address is listed exactly if one of the three scans found it |
| Discovery.MergeReads | crates/rustmote-core/src/discovery.rs:372-413 | a host's name is the first one found for its address, its MAC that of the first ARP entry, and its flag is set exactly for a known server |
| Discovery.MergeDetermined | crates/rustmote-core/src/discovery.rs:372-413 | that specification determines the output, and depends on the ICMP hits only as a set |
| KnownHosts.EndpointInjective | crates/rustmote-core/src/session/known_hosts.rs:151-153 | distinct endpoints never share a key, also for hosts containing ':' |
| KnownHosts.Store.VerifyOrPin | crates/rustmote-core/src/session/known_hosts.rs:170-197 | the verdict and the whole new store |
| KnownHosts.Store.Get | crates/rustmote-core/src/session/known_hosts.rs:157-159 | the entry of the endpoint, if there is one |
| KnownHosts.OneCheck | crates/rustmote-core/src/session/known_hosts.rs:170-197 | one check on the text key "host:port": matched, a mismatch with the pinned key and the fingerprint seen, pinned as observed, or rejected, each exactly when, and what the store holds after it |
| KnownHosts.PinnedForever | crates/rustmote-core/src/session/known_hosts.rs:170-197 | over any later checks a pinned key never changes or disappears |
| KnownHosts.OneFingerprint | crates/rustmote-core/src/session/known_hosts.rs:170-197 | after one accepted check, later checks of that host and port are accepted exactly for the same fingerprint, and are otherwise mismatches |
| KnownHosts.NewEntriesArePinned | crates/rustmote-core/src/session/known_hosts.rs:170-197 | an endpoint enters the store exactly when a trusting check of that endpoint ran; strict checks and other endpoints never add it |

## Left out

- LiveFiles.FailedStartLeavesNewFiles: containers that a failing `up` may have recreated halfway are not
  described; the model keeps the compose text of the last successful `up`.
- Coverage.RenderCovers: for tags that end in no prefix of "image"; overlapping references are the subject of
  Compose.CountPreserved.
- Collection.CollectTwice: directory times come from each listing, so that the second listing shows the
  same times as the first is a premise; the host model keeps no times.
- HealthTime.HealthCheckBounded: for a positive interval; every command and sleep advances the clock by
  at least one unit, so the loop terminates for a zero interval too, but with no bound in T alone.
- RegistryCache.HitsAreRecent: age is measured at the caller's clock reading; a thread held up between
  that reading and its cache lookup can return an answer that has aged by as much as it was held up.
  A TTL beyond chrono's range never expires, so the bound is stated for the others.
- Convergence.UpdateConverges: the registry gives the same answers throughout; the cache in front of it
  is modelled separately.
- Lineage.OneOrigin: a `test -d` that hides the install directory ends it, since bootstrap then installs
  over what is there (BootstrapScenarios.DirectoryCanHide); so does a `cp` torn onto the live state file.
- Discovery.MergeResults: starts from the three result lists; the mDNS, ICMP and ARP readers, including
  the ARP table parser, are not part of this model.
- SSH, host-key transport, port forwarding and authentication: library behaviour; only the exit code,
  output and loss of a reply are kept.
- HTTP, token flow and TLS of the registry transport: an arbitrary oracle.
- TOML and JSON parsing, lossy UTF-8 decoding, the OS-release parser and the trimming of the public
  key: parameters or opaque bytes.
- `status`, `ps` and log retrieval, apart from the command lines they send: read-only, single branch.
- Saving the cache and the known-hosts store: only whether the cache save succeeded is kept.
- Real containers: `pull` and `up` leave the compose and state files alone; `up` may create the key file
  and records which compose text is running.
- Symbolic links, `..` inside the tree (the validators refuse it), a file and a directory of the same name,
  permission bits, and deletions that remove only part of a tree.
- Backup names with a newline or carriage return: the listing is right only without them.
- Options that only travel through (`install_path` and `rolled_back` in the reports), the version and
  repository defaults, and the credential, registry and command-line crates.
