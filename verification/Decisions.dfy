// What the operations decide and report, in terms of the state file, the registry's answers and the
// host's replies alone.
module Decisions {
  import opened Wrappers
  import opened Paths
  import opened Commands
  import opened Shell
  import opened State
  import opened Render
  import opened Semver
  import opened Protocol
  import opened RunFacts
  import opened UpdateFacts
  import opened UpdateTheorems
  import opened Lineage
  import opened HealthTime
  import Comp = Compose

  // ---------------------------------------------------------------------------
  // Checking for updates
  // ---------------------------------------------------------------------------

  /** The tag an update goes for: the latest listed one, or the pinned one if none is numeric. */
  predicate IsChosen(tags: seq<string>, pinned: string, tag: string) {
    || (exists k: nat :: k < |tags| && IsLatest(tags, k) && tag == tags[k])
    || ((forall t :: t in tags ==> ParseDottedNumeric(t).None?) && tag == pinned)
  }

  lemma LatestTagIsChosen(tags: seq<string>, pin: ImagePin, tag: string)
    ensures IsChosen(tags, pin.tag, tag) <==> LatestTag(tags, pin) == tag
  {
    hide ParseDottedNumeric, Precedes;
    PicksLatest(tags);
    if PickLatestSemver(tags).Some? {
      var k: nat :| IsLatest(tags, k) && PickLatestSemver(tags) == Some(tags[k]);
      if j: nat :| j < |tags| && IsLatest(tags, j) && tag == tags[j] {
        OneLatest(tags, j, k);
      }
      assert tags[k] in tags;
    } else {
      forall j: nat | j < |tags|
        ensures !IsLatest(tags, j)
      {
        assert tags[j] in tags;
      }
    }
  }

  /** One line of the report: the pin as it is, and the tag and digest the registry gives for it. */
  predicate IsRow(env: Env, at: nat, i: nat, pin: ImagePin, row: ImageUpdate) {
    var tags := env.registry.tags(at, i, pin.repo);
    && row.service == pin.service && row.repo == pin.repo
    && row.currentTag == pin.tag && row.currentDigest == pin.digest
    && tags.Some? && IsChosen(tags.value, pin.tag, row.latestTag)
    && env.registry.digest(at, i, pin.repo, row.latestTag) == Some(row.latestDigest)
  }

  lemma RowChecked(env: Env, at: nat, i: nat, pin: ImagePin)
    requires CheckPin(env, at, i, pin).Ok?
    ensures IsRow(env, at, i, pin, CheckPin(env, at, i, pin).value)
  {
    hide IsChosen, LatestTag;
    var row := CheckPin(env, at, i, pin).value;
    LatestTagIsChosen(env.registry.tags(at, i, pin.repo).value, pin, row.latestTag);
  }

  /** Reading the state takes two steps when it goes through: the test and the `cat`. */
  lemma LoadTakesTwo(env: Env, w: World, install: string)
    requires LoadState(env, w, install).r.Ok?
    ensures |LoadState(env, w, install).w.trail| == |w.trail| + 2
  {
    hide RunScript, Accepts, StatePath;
    var p := StatePath(install);
    SingleStep(env.remote, w, TestFileExists(p));
    var t := Do(env.remote, w, TestFileExists(p));
    SingleStep(env.remote, t.w, CatFile(p));
  }

  lemma SingleStep(s: Schedule, w: World, c: Cmd)
    requires c.TestFileExists? || c.CatFile? || c.CheckDockerPresent? || c.CheckComposeV2? || c.CheckComposeV1?
    ensures Do(s, w, c).r.Ok? ==> |Do(s, w, c).w.trail| == |w.trail| + 1
  {
    hide Accepts, Apply;
    assert |Script(c)| == 1;
  }

  /** The state file as it is read at the start. */
  function StateAt(env: Env, w: World, install: string): Option<RelayState> {
    match At(w.fs, PlaceOf(install, State))
    case None => None
    case Some(content) => env.toml.decode(content)
  }

  /** The report of a check that goes through has one line for each pin of the state file, in order. */
  lemma CheckReports(env: Env, w: World, install: string)
    requires CheckUpdates(env, w, install).r.Ok?
    ensures var rows, state := CheckUpdates(env, w, install).r.value, StateAt(env, w, install);
            && state.Some? && |rows| == |state.value.images|
            && forall i :: 0 <= i < |rows| ==> IsRow(env, |w.trail| + 2, i, state.value.images[i], rows[i])
  {
    hide LoadState, PlaceOf, CheckPin, CheckPins, IsRow;
    var s := LoadState(env, w, install);
    LoadStateReads(env, w, install);
    LoadTakesTwo(env, w, install);
    var rows, pins := CheckUpdates(env, w, install).r.value, s.r.value.images;
    CheckPinsPoint(env, |w.trail| + 2, pins, 0);
    forall i | 0 <= i < |rows|
      ensures IsRow(env, |w.trail| + 2, i, pins[i], rows[i])
    {
      assert CheckPin(env, |w.trail| + 2, i, pins[i]) == Ok(rows[i - 0]);
      RowChecked(env, |w.trail| + 2, i, pins[i]);
    }
  }

  /** The tag an update of this pin would go for. */
  predicate IsGoal(env: Env, at: nat, i: nat, pin: ImagePin, tag: string) {
    var tags := env.registry.tags(at, i, pin.repo);
    tags.Some? && IsChosen(tags.value, pin.tag, tag)
  }

  /** For some pin the registry gives, for the tag to go for, another digest than the pinned one. */
  ghost predicate HasDrift(env: Env, at: nat, pins: seq<ImagePin>) {
    exists i, tag ::
      0 <= i < |pins| && IsGoal(env, at, i, pins[i], tag) && env.registry.digest(at, i, pins[i].repo, tag) != Some(pins[i].digest)
  }

  /** A check that goes through finds an update exactly if a digest has drifted. */
  lemma CheckDecides(env: Env, w: World, install: string)
    requires CheckUpdates(env, w, install).r.Ok?
    ensures StateAt(env, w, install).Some?
    ensures AnyUpdate(CheckUpdates(env, w, install).r.value) <==>
            HasDrift(env, |w.trail| + 2, StateAt(env, w, install).value.images)
  {
    hide CheckUpdates, StateAt, IsChosen;
    CheckReports(env, w, install);
    var rows, pins, at := CheckUpdates(env, w, install).r.value, StateAt(env, w, install).value.images, |w.trail| + 2;
    if u :| u in rows && UpdateAvailable(u) {
      var i :| 0 <= i < |rows| && rows[i] == u;
      assert IsRow(env, at, i, pins[i], u);
      assert IsGoal(env, at, i, pins[i], u.latestTag);
    }
    if i, tag :| 0 <= i < |pins| && IsGoal(env, at, i, pins[i], tag)
                 && env.registry.digest(at, i, pins[i].repo, tag) != Some(pins[i].digest) {
      assert IsRow(env, at, i, pins[i], rows[i]);
      ChosenOnce(env.registry.tags(at, i, pins[i].repo).value, pins[i], tag, rows[i].latestTag);
      assert rows[i] in rows && UpdateAvailable(rows[i]);
    }
  }

  lemma ChosenOnce(tags: seq<string>, pin: ImagePin, a: string, b: string)
    requires IsChosen(tags, pin.tag, a) && IsChosen(tags, pin.tag, b)
    ensures a == b
  {
    hide IsChosen, LatestTag;
    LatestTagIsChosen(tags, pin, a);
    LatestTagIsChosen(tags, pin, b);
  }

  // ---------------------------------------------------------------------------
  // Whether an update happens, and what it reports
  // ---------------------------------------------------------------------------

  /** Without a confirmation nothing is even read. */
  lemma UpdateRefused(env: Env, w: World, install: string, opts: UpdateOptions)
    ensures Update(env, w, install, opts) == Run(w, Err(RelayUpdateNotConfirmed)) <==> !opts.assumeYes && !opts.isTty
    ensures Update(env, w, install, opts).r == Err(RelayUpdateNotConfirmed) <==> !opts.assumeYes && !opts.isTty
  {
    hide CheckUpdates, LoadState, Replace;
    if opts.assumeYes || opts.isTty {
      CheckUpdatesErrors(env, w, install);
      var c := CheckUpdates(env, w, install);
      LoadStateErrors(env, c.w, install);
      if c.r.Ok? {
        ReplaceNotRefused(env, c.w, install, opts, c.r.value);
      }
    }
  }

  lemma ReplaceNotRefused(env: Env, w: World, install: string, opts: UpdateOptions, images: seq<ImageUpdate>)
    ensures Replace(env, w, install, opts, images).r != Err(RelayUpdateNotConfirmed)
  {
    hide TakeBackup, Deploy, BackupDir;
    var now := env.wall(|w.trail|);
    var dir := BackupDir(install, now);
    TakeBackupErrors(env, w, install, dir);
    DeployNotRefused(env, w, install, opts, images, now, None);
    DeployNotRefused(env, TakeBackup(env, w, install, dir).w, install, opts, images, now, Some(dir));
  }

  lemma DeployNotRefused(env: Env, w: World, install: string, opts: UpdateOptions, images: seq<ImageUpdate>, now: DateTime,
                         dir: Option<string>)
    ensures Deploy(env, w, install, opts, images, now, dir).r != Err(RelayUpdateNotConfirmed)
  {
    hide Deploy, Launched, HealthCheck, GcBackups, Rollback;
    DeploySettles(env, w, install, opts, images, now, dir);
    var launched := Launched(env, w, install, opts, images, now);
    if launched.Some? {
      var v := launched.value.0;
      HealthErrors(env, v);
      GcErrors(env, HealthCheck(env, v).w, install, now);
      if dir.Some? {
        RollbackErrors(env, HealthCheck(env, v).w, install, dir.value);
      }
    }
  }

  predicate IsCheckError(e: Error) {
    IsTransportError(e) || e == RelayHealthCheckFailed
  }

  lemma {:induction false} LoopErrors(env: Env, w: World, deadline: int)
    ensures HealthLoop(env, w, deadline).r.Err? ==> IsCheckError(HealthLoop(env, w, deadline).r.error)
    decreases deadline - w.clock
  {
    hide ProbeRound;
    ProbeRoundErrors(env, w, [HBBS_PORT, HBBR_PORT]);
    var t := ProbeRound(env, w, [HBBS_PORT, HBBR_PORT]);
    if t.r == Ok(false) && t.w.clock < deadline {
      LoopErrors(env, Sleep(env, t.w), deadline);
    }
  }

  lemma HealthErrors(env: Env, w: World)
    ensures HealthCheck(env, w).r.Err? ==> IsCheckError(HealthCheck(env, w).r.error)
  {
    hide HealthLoop;
    LoopErrors(env, w, w.clock + env.timeout);
  }

  lemma RollbackErrors(env: Env, w: World, install: string, dir: string)
    ensures Rollback(env, w, install, dir).r.Err? ==> IsCheckError(Rollback(env, w, install, dir).r.error)
  {
    hide RunAll, HealthCheck, RestoreCommands;
    RunAllErrors(env.remote, w, RestoreCommands(install, dir));
    HealthErrors(env, RunAll(env.remote, w, RestoreCommands(install, dir)).w);
  }

  /** A successful update reports a change exactly if a digest has drifted: whatever the tags are, and only
      then. Without one it returns the state as it is, no backup and no deletions. */
  lemma UpdateDecides(env: Env, w: World, install: string, opts: UpdateOptions)
    requires Update(env, w, install, opts).r.Ok?
    ensures var report, state := Update(env, w, install, opts).r.value, StateAt(env, w, install);
            && state.Some? && (report.changed <==> HasDrift(env, |w.trail| + 2, state.value.images))
            && (!report.changed ==> report == UpdateReport(false, state.value, None, []))
  {
    hide CheckUpdates, LoadState, Replace, PlaceOf, HasDrift, IsDeployed;
    CheckDecides(env, w, install);
    var c := CheckUpdates(env, w, install);
    if AnyUpdate(c.r.value) {
      ReplaceSucceeds(env, c.w, install, opts, c.r.value);
    } else {
      CheckUpdatesIdle(env, w, install);
      IdleSameFs(w, c.w);
      LoadStateReads(env, c.w, install);
    }
  }

  /** The pin a new state holds for a pin of the old one. */
  predicate IsNewPin(env: Env, at: nat, i: nat, was: ImagePin, pin: ImagePin, now: DateTime) {
    && pin.service == was.service && pin.repo == was.repo && pin.pinnedAt == now
    && IsGoal(env, at, i, was, pin.tag) && env.registry.digest(at, i, was.repo, pin.tag) == Some(pin.digest)
  }

  /** The state a changing update reports: the old one with each pin moved to the tag to go for and its
      digest, and the time of the update. And the backup it reports is the one named by that time. */
  lemma UpdateReports(env: Env, w: World, install: string, opts: UpdateOptions)
    requires Update(env, w, install, opts).r.Ok? && Update(env, w, install, opts).r.value.changed
    ensures var report, was := Update(env, w, install, opts).r.value, StateAt(env, w, install);
            var now := env.wall(|w.trail| + 2);
            && was.Some?
            && report.newState.install == InstallMetadata(was.value.install.bootstrappedAt, was.value.install.version, Some(now))
            && |report.newState.images| == |was.value.images|
            && (forall i :: 0 <= i < |was.value.images| ==>
                  IsNewPin(env, |w.trail| + 2, i, was.value.images[i], report.newState.images[i], now))
            && report.backupDir == if opts.skipBackup then None else Some(BackupDir(install, now))
  {
    hide CheckUpdates, LoadState, Replace, PlaceOf, IsDeployed, IsChosen, CheckPins;
    CheckReports(env, w, install);
    var c := CheckUpdates(env, w, install);
    CheckLeavesAt(env, w, install);
    CheckUpdatesIdle(env, w, install);
    IdleSameFs(w, c.w);
    ReplaceReports(env, c.w, install, opts, c.r.value);
    var was := StateAt(env, w, install).value;
    var images := Update(env, w, install, opts).r.value.newState.images;
    forall i | 0 <= i < |was.images|
      ensures IsNewPin(env, |w.trail| + 2, i, was.images[i], images[i], env.wall(|w.trail| + 2))
    {
      assert IsRow(env, |w.trail| + 2, i, was.images[i], c.r.value[i]);
    }
  }

  lemma CheckLeavesAt(env: Env, w: World, install: string)
    requires CheckUpdates(env, w, install).r.Ok?
    ensures |CheckUpdates(env, w, install).w.trail| == |w.trail| + 2
  {
    hide LoadState, CheckPins;
    LoadTakesTwo(env, w, install);
  }

  lemma ReplaceReports(env: Env, w: World, install: string, opts: UpdateOptions, images: seq<ImageUpdate>)
    requires Replace(env, w, install, opts, images).r.Ok? && StateAt(env, w, install).Some?
    ensures var report, was := Replace(env, w, install, opts, images).r.value, StateAt(env, w, install).value;
            var now := env.wall(|w.trail|);
            && report.newState == RelayState(InstallMetadata(was.install.bootstrappedAt, was.install.version, Some(now)),
                                             PinsOf(images, now))
            && report.backupDir == if opts.skipBackup then None else Some(BackupDir(install, now))
  {
    hide TakeBackup, Deploy, BackupDir, PlaceOf, PinsOf;
    var now := env.wall(|w.trail|);
    if opts.skipBackup {
      DeployReports(env, w, install, opts, images, now, None);
    } else {
      var dir := BackupDir(install, now);
      TakeBackupQuiet(env, w, install, now, State);
      DeployReports(env, TakeBackup(env, w, install, dir).w, install, opts, images, now, Some(dir));
    }
  }

  lemma DeployReports(env: Env, w: World, install: string, opts: UpdateOptions, images: seq<ImageUpdate>, now: DateTime,
                      dir: Option<string>)
    requires Deploy(env, w, install, opts, images, now, dir).r.Ok?
    ensures var report, was := Deploy(env, w, install, opts, images, now, dir).r.value, StateAt(env, w, install);
            && was.Some? && report.backupDir == dir
            && report.newState.install == InstallMetadata(was.value.install.bootstrappedAt, was.value.install.version, Some(now))
            && report.newState.images == PinsOf(images, now)
  {
    hide LoadState, RunAll, RenderPins, DeployCommands, HealthCheck, GcBackups, Rollback, PlaceOf, PinsOf;
    LoadStateReads(env, w, install);
  }

  /** In the live compose file of a changing update, whose pins can be written in any order, each text
      `image: repo:tag` of a pin goes on with '@' and the digest. */
  lemma LiveReferences(env: Env, w: World, install: string, opts: UpdateOptions, p: ImagePin, i: nat)
    requires Update(env, w, install, opts).r.Ok? && Update(env, w, install, opts).r.value.changed
    requires p in Update(env, w, install, opts).r.value.newState.images
    requires PinsCompatible(Update(env, w, install, opts).r.value.newState.images)
    ensures var live := At(Update(env, w, install, opts).w.fs, PlaceOf(install, Compose));
            && live.Some?
            && (i <= |live.value| && "image: " + p.repo + ":" + p.tag <= live.value[i..] ==>
                  "image: " + p.repo + ":" + p.tag + ("@" + p.digest) <= live.value[i..])
  {
    hide Update, PlaceOf, PinsCompatible;
    UpdatePins(env, w, install, opts);
    var live := At(Update(env, w, install, opts).w.fs, PlaceOf(install, Compose)).value;
    assert IsMarked(live, p);
    Comp.SearchSpelled(Comp.KeyOf(p));
  }
}
