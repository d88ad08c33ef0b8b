// Failing steps of an update: for every calm host a schedule that differs from it in a step or two and
// takes the update down one of the paths the other modules describe.
module Scenarios {
  import opened Wrappers
  import opened Text
  import opened Paths
  import opened Validators
  import opened Listing
  import opened Commands
  import opened Shell
  import opened ShellFacts
  import opened State
  import opened Render
  import opened Retention
  import opened Protocol
  import opened RunFacts
  import opened UpdateFacts
  import opened UpdateTheorems
  import opened Recovery
  import opened Lineage
  import opened LiveFiles
  import opened PathSafety
  import opened ForeignNames
  import opened Progress
  import opened Locality

  // ---------------------------------------------------------------------------
  // One failing step
  // ---------------------------------------------------------------------------

  /** A `cp` torn halfway leaves what the schedule says. */
  lemma CopyTears(s: Schedule, w: World, src: string, dst: string, bytes: Bytes)
    requires IsRemotePath(src) && IsRemotePath(dst) && Locate(src) in w.fs.files && !s.lost(|w.trail|)
    requires s.outcome(|w.trail|).exit == 1 && s.outcome(|w.trail|).tornCopy == Some(bytes)
    ensures var t := ExecOk(s, w, CopyFile(src, dst));
            t.r == Err(RemoteCommandFailed(1)) && At(t.w.fs, Locate(dst)) == Some(bytes)
  {
    hide IsRemotePath, Locate;
    assert Script(CopyFile(src, dst)) == [Copy(src, dst)];
  }

  /** A command list stops at the first command that fails. */
  lemma {:induction false} StopsAt(s: Schedule, w: World, a: seq<Cmd>, c: Cmd, rest: seq<Cmd>)
    requires RunAll(s, w, a).r.Ok? && ExecOk(s, RunAll(s, w, a).w, c).r.Err?
    ensures var t := ExecOk(s, RunAll(s, w, a).w, c);
            RunAll(s, w, a + ([c] + rest)) == Run(t.w, Err(t.r.error))
  {
    hide ExecOk, RunAll;
    RunAllSplits(s, w, a, [c] + rest);
    StopsFirst(s, RunAll(s, w, a).w, c, rest);
  }

  lemma StopsFirst(s: Schedule, w: World, c: Cmd, rest: seq<Cmd>)
    requires ExecOk(s, w, c).r.Err?
    ensures RunAll(s, w, [c] + rest) == Run(ExecOk(s, w, c).w, Err(ExecOk(s, w, c).r.error))
  {
    hide ExecOk;
    assert ([c] + rest)[0] == c;
  }

  lemma MkdirFails(s: Schedule, w: World, path: string)
    requires IsRemotePath(path) && s.outcome(|w.trail|).exit == 1 && s.outcome(|w.trail|).torn == None && !s.lost(|w.trail|)
    ensures ExecOk(s, w, MkdirP(path)).r == Err(RemoteCommandFailed(1)) && ExecOk(s, w, MkdirP(path)).w.fs == w.fs
  {
    hide IsRemotePath, Locate;
    assert Script(MkdirP(path)) == [Mkdir(path)];
  }

  lemma PullFails(s: Schedule, w: World, install: string)
    requires IsRemotePath(install) && !s.lost(|w.trail|)
    requires s.outcome(|w.trail|).exit == 0 && s.outcome(|w.trail| + 1).exit == 1
    ensures var t := ExecOk(s, w, ComposePull(install)); t.r == Err(RemoteCommandFailed(1)) && |t.w.trail| == |w.trail| + 2
  {
    hide IsRemotePath, Locate;
    var prims := Script(ComposePull(install));
    assert prims == [ChangeDir(install), Pull] && [ChangeDir(install), Pull][1..] == [Pull];
    var e := Apply(ChangeDir(install), [], w.fs, w.running, s.outcome(|w.trail|));
    var v := After(w, ChangeDir(install), e);
    assert RunScript(s, w, [], prims) == RunScript(s, v, e.cwd, [Pull]);
  }

  lemma UpFails(s: Schedule, w: World, install: string)
    requires IsRemotePath(install) && !s.lost(|w.trail|)
    requires s.outcome(|w.trail|).exit == 0 && s.outcome(|w.trail| + 1).exit == 1
    ensures ExecOk(s, w, ComposeUp(install)).r.Err? && ExecOk(s, w, ComposeUp(install)).w.fs.dirs == w.fs.dirs
  {
    hide IsRemotePath, Locate, KeyLocation;
    var prims := Script(ComposeUp(install));
    assert prims == [ChangeDir(install), Up] && [ChangeDir(install), Up][1..] == [Up];
    var e := Apply(ChangeDir(install), [], w.fs, w.running, s.outcome(|w.trail|));
    var v := After(w, ChangeDir(install), e);
    assert RunScript(s, w, [], prims) == RunScript(s, v, e.cwd, [Up]);
  }

  lemma ProbeFails(env: Env, w: World)
    requires env.remote.outcome(|w.trail|).exit == 1 && !env.remote.lost(|w.trail|)
    requires env.remote.delay(|w.trail|) == env.timeout
    ensures var h := HealthCheck(env, w);
            && h == Run(Do(env.remote, w, TcpProbe(HBBS_PORT)).w, Err(RelayHealthCheckFailed))
            && h.w.fs == w.fs && h.w.running == w.running && |h.w.trail| == |w.trail| + 1
  {
    var ports := [HBBS_PORT, HBBR_PORT];
    var c := TcpProbe(HBBS_PORT);
    assert Script(c) == [Probe(HBBS_PORT)];
    var t := Do(env.remote, w, c);
    assert t.r == Ok(Output("", 1)) && t.w.clock == w.clock + 1 + env.timeout;
    assert ProbeRound(env, w, ports) == Run(t.w, Ok(false));
  }

  // ---------------------------------------------------------------------------
  // An update whose pull fails
  // ---------------------------------------------------------------------------

  /** A calm update that goes ahead gets to both writes. */
  lemma CalmWritesBoth(env: Env, w: World, install: string, opts: UpdateOptions)
    requires IsCalm(env.remote, |w.trail|) && IsRemotePath(install) && CanUpdate(env, w, install, opts)
    requires Decided(env, w, install, opts).Some?
    ensures UpdateTarget(env, w, install, opts).Some?
    ensures var v := Decided(env, w, install, opts).value.0;
            var b := Secured(env, v, install, opts);
            && b.r.Ok? && |w.trail| <= |v.trail| <= |b.w.trail| && LoadState(env, b.w, install).r.Ok?
            && Written(env, b.w, install, UpdateTarget(env, w, install, opts).value).r.Ok?
  {
    hide LoadState, PlaceOf, IsRemotePath, CheckPins, MeetsForeignName, RenderPins, TakeBackup, BackupDir, AllValid, RunAll,
         ComposePath, StatePath;
    LoadStateIdle(env, w, install);
    LoadedHasStateIfCalm(env, w, install);
    var (v, images) := Decided(env, w, install, opts).value;
    var now := env.wall(|v.trail|);
    IdleSameFs(w, LoadState(env, w, install).w);
    if !opts.skipBackup {
      CalmTakesBackup(env, v, install, now);
      TakeBackupQuiet(env, v, install, now, State);
    }
    var b := Secured(env, v, install, opts);
    CalmLoad(env, b.w, install);
    RenderInserts(opts.template, PinsOf(images, now));
    CalmBothWrites(env.remote, LoadState(env, b.w, install).w, install, UpdateTarget(env, w, install, opts).value);
  }

  lemma LoadedHasStateIfCalm(env: Env, w: World, install: string)
    requires IsCalm(env.remote, |w.trail|) && IsRemotePath(install) && HasState(env, w.fs, install)
    ensures LoadState(env, w, install).r.Ok?
    ensures Some(LoadState(env, w, install).r.value) == env.toml.decode(At(w.fs, PlaceOf(install, State)).value)
  {
    hide IsRemotePath, PlaceOf, LoadState;
    CalmLoad(env, w, install);
  }

  lemma CalmBothWrites(s: Schedule, w: World, install: string, target: Target)
    requires IsCalm(s, |w.trail|) && IsRemotePath(install)
    ensures RunAll(s, w, [WriteFile(ComposePath(install), target.compose), WriteFile(StatePath(install), target.state)]).r.Ok?
  {
    hide ExecOk, PathOf, PlaceOf, RunAll, Succeeds, IsRemotePath, ComposePath, StatePath;
    HelpersNamePlaces(install, Instant(0, 1970, 1, 1, 0, 0, 0));
    LiveAccepted(install);
    var c0, c1 := WriteFile(ComposePath(install), target.compose), WriteFile(StatePath(install), target.state);
    assert [c0, c1][1..] == [c1] && [c1][1..] == [];
    CalmWritePlace(s, w, install, Compose, target.compose, State);
    RunAllNext(s, w, [c0, c1]);
    var w1 := ExecOk(s, w, c0).w;
    CalmWritePlace(s, w1, install, State, target.state, Compose);
    RunAllNext(s, w1, [c1]);
    RunAllNone(s, ExecOk(s, w1, c1).w);
  }

  /** The part of an update up to the writes is the same under a schedule that agrees so far. */
  lemma WrittenLocal(env: Env, t: Schedule, k: nat, w: World, install: string, opts: UpdateOptions)
    requires Agree(env.remote, t, k) && UpdateTarget(env, w, install, opts).Some?
    requires var v := Decided(env, w, install, opts).value.0;
             |Written(env, Secured(env, v, install, opts).w, install, UpdateTarget(env, w, install, opts).value).w.trail| <= k
    ensures var f := env.(remote := t);
            var v, target := Decided(env, w, install, opts).value.0, UpdateTarget(env, w, install, opts);
            var b := Secured(env, v, install, opts);
            && Decided(f, w, install, opts) == Decided(env, w, install, opts) && Secured(f, v, install, opts) == b
            && UpdateTarget(f, w, install, opts) == target
            && Written(f, b.w, install, target.value) == Written(env, b.w, install, target.value)
  {
    hide LoadState, RenderPins, Secured, RunAll, ComposePath, StatePath, Agree, CheckUpdates;
    var (v, images) := Decided(env, w, install, opts).value;
    var b, target := Secured(env, v, install, opts), UpdateTarget(env, w, install, opts).value;
    CheckedAt(env, w, install);
    SecuredGrows(env, v, install, opts);
    DecidedLocal(env, t, k, w, install, opts);
    SecuredLocal(env, t, k, v, install, opts);
    LoadLocal(env, t, k, b.w, install);
    var writes := [WriteFile(ComposePath(install), target.compose), WriteFile(StatePath(install), target.state)];
    RunAllLocal(env.remote, t, k, LoadState(env, b.w, install).w, writes);
  }

  lemma CheckedAt(env: Env, w: World, install: string)
    ensures CheckUpdates(env, w, install).w == LoadState(env, w, install).w
  {
    hide LoadState, CheckPins;
  }

  lemma SecuredGrows(env: Env, w: World, install: string, opts: UpdateOptions)
    ensures |w.trail| <= |Secured(env, w, install, opts).w.trail|
  {
    hide TakeBackup;
  }

  /** For every calm host on which an update goes ahead there is a schedule, different in one step only,
      under which the pull fails: the update ends with the new files live, and nothing new started. */
  lemma PullCanFail(env: Env, w: World, install: string, opts: UpdateOptions) returns (s: Schedule)
    requires IsCalm(env.remote, |w.trail|) && IsRemotePath(install) && CanUpdate(env, w, install, opts)
    requires Decided(env, w, install, opts).Some?
    ensures var f := env.(remote := s);
            var t, target := Update(f, w, install, opts), UpdateTarget(env, w, install, opts);
            && target.Some? && UpdateTarget(f, w, install, opts) == target
            && t.r == Err(RemoteCommandFailed(1)) && t.w.running == w.running && IsCalm(s, |t.w.trail|)
            && At(t.w.fs, PlaceOf(install, Compose)) == Some(target.value.compose)
            && At(t.w.fs, PlaceOf(install, State)) == Some(target.value.state)
  {
    hide LoadState, Update, Secured, Written, RunAll, Decided, UpdateTarget, CanUpdate, IsRemotePath, PlaceOf, IsTransportError;
    CalmWritesBoth(env, w, install, opts);
    var v, target := Decided(env, w, install, opts).value.0, UpdateTarget(env, w, install, opts).value;
    var b := Secured(env, v, install, opts);
    var written := Written(env, b.w, install, target);
    WrittenGrows(env, b.w, install, target);
    var k := |written.w.trail| + 1;
    s := Disturb(env.remote, k, 0, None);
    Disturbed(env.remote, |w.trail|, k, 0, None);
    var f := env.(remote := s);
    WrittenLocal(env, s, k, w, install, opts);
    PullFails(s, written.w, install);
    StopsFirst(s, written.w, ComposePull(install), [ComposeUp(install)]);
    assert [ComposePull(install)] + [ComposeUp(install)] == [ComposePull(install), ComposeUp(install)];
    FailedStartLeavesNewFiles(f, w, install, opts);
  }

  lemma WrittenGrows(env: Env, w: World, install: string, target: Target)
    ensures |w.trail| <= |Written(env, w, install, target).w.trail|
  {
    hide LoadState, RunAll, ComposePath, StatePath;
  }

  // ---------------------------------------------------------------------------
  // An update whose health check fails
  // ---------------------------------------------------------------------------

  lemma CalmLaunches(env: Env, w: World, install: string, opts: UpdateOptions, images: seq<ImageUpdate>, now: DateTime)
    requires IsCalm(env.remote, |w.trail|) && IsRemotePath(install) && HasState(env, w.fs, install)
    requires AllValid(PinsOf(images, now))
    ensures var v := Launched(env, w, install, opts, images, now); v.Some? && |w.trail| <= |v.value.0.trail|
  {
    hide LoadState, RunAll, RenderPins, DeployCommands, IsRemotePath, HasState, AllValid;
    CalmLoad(env, w, install);
    var l := LoadState(env, w, install);
    var pins := PinsOf(images, now);
    RenderInserts(opts.template, pins);
    CalmDeploys(env.remote, l.w, install, RenderPins(opts.template, pins).value,
                env.toml.encode(ApplyUpdate(l.r.value, pins, now)));
  }

  lemma LaunchedLocal(env: Env, t: Schedule, k: nat, w: World, install: string, opts: UpdateOptions,
                      images: seq<ImageUpdate>, now: DateTime)
    requires Agree(env.remote, t, k) && Launched(env, w, install, opts, images, now).Some?
    requires |Launched(env, w, install, opts, images, now).value.0.trail| <= k
    ensures Launched(env.(remote := t), w, install, opts, images, now) == Launched(env, w, install, opts, images, now)
  {
    hide LoadState, RunAll, RenderPins, DeployCommands, Agree;
    LoadLocal(env, t, k, w, install);
    var l := LoadState(env, w, install);
    var newState := ApplyUpdate(l.r.value, PinsOf(images, now), now);
    var compose := RenderPins(opts.template, PinsOf(images, now)).value;
    RunAllLocal(env.remote, t, k, l.w, DeployCommands(install, compose, env.toml.encode(newState)));
  }

  lemma CalmRestores(s: Schedule, w: World, install: string, at: DateTime)
    requires IsCalm(s, |w.trail|) && IsRemotePath(install) && at.year <= 9999
    requires At(w.fs, PlaceOf(install, SavedCompose(at))).Some? && At(w.fs, PlaceOf(install, SavedState(at))).Some?
    ensures RunAll(s, w, RestoreCommands(install, BackupDir(install, at))).r.Ok?
  {
    hide ExecOk, PathOf, PlaceOf, RunAll, Succeeds, IsRemotePath, Accepts;
    CommandsAccepted(install, at, "", "", "");
    BackupPaths(install, at);
    var cs := RestoreCommands(install, BackupDir(install, at));
    assert cs[0] in cs && cs[1] in cs && cs[2] in cs;
    assert cs[1..] == [cs[1], cs[2]] && [cs[1], cs[2]][1..] == [cs[2]];
    CalmCopy(s, w, install, SavedCompose(at), Compose, SavedState(at));
    CopyPlaces(s, w, install, SavedCompose(at), Compose, SavedState(at));
    RunAllNext(s, w, cs);
    var w1 := ExecOk(s, w, cs[0]).w;
    CalmCopy(s, w1, install, SavedState(at), State, Compose);
    RunAllNext(s, w1, [cs[1], cs[2]]);
    CalmUps(s, ExecOk(s, w1, cs[1]).w, install);
  }

  /** After one failed round the rest of a calm rollback goes through. */
  lemma CalmRollsBack(env: Env, w: World, install: string, at: DateTime)
    requires IsCalm(env.remote, |w.trail|) && IsRemotePath(install) && at.year <= 9999
    requires At(w.fs, PlaceOf(install, SavedCompose(at))).Some? && At(w.fs, PlaceOf(install, SavedState(at))).Some?
    ensures Rollback(env, w, install, BackupDir(install, at)).r.Ok?
  {
    hide RunAll, RestoreCommands, BackupDir, PlaceOf, IsRemotePath, HealthCheck;
    CalmRestores(env.remote, w, install, at);
    CalmHealth(env, RunAll(env.remote, w, RestoreCommands(install, BackupDir(install, at))).w);
  }

  lemma ProbeFailsSettle(env: Env, w: World, install: string, now: DateTime, dir: Option<DateTime>, newState: RelayState)
    requires env.remote.outcome(|w.trail|).exit == 1 && !env.remote.lost(|w.trail|)
    requires env.remote.delay(|w.trail|) == env.timeout
    requires IsCalm(env.remote, |w.trail| + 1) && IsRemotePath(install)
    requires dir.Some? ==> dir.value.year <= 9999 && At(w.fs, PlaceOf(install, SavedCompose(dir.value))).Some?
                           && At(w.fs, PlaceOf(install, SavedState(dir.value))).Some?
    ensures Settle(env, w, install, now, DirOf(install, dir), newState).r == Err(RelayHealthCheckFailed)
  {
    hide HealthCheck, Rollback, PlaceOf, IsRemotePath, BackupDir, GcBackups;
    ProbeFails(env, w);
    if dir.Some? {
      CalmRollsBack(env, HealthCheck(env, w).w, install, dir.value);
    }
  }

  /** For every calm host on which an update goes ahead there is a schedule, different in one step only,
      under which the first probe fails for as long as the check may take: the update reports the failed
      health check. With a backup it has been rolled back by then; with skip_backup it has not. */
  lemma HealthCanFail(env: Env, w: World, install: string, opts: UpdateOptions) returns (s: Schedule)
    requires IsCalm(env.remote, |w.trail|) && IsRemotePath(install) && CanUpdate(env, w, install, opts)
    requires Decided(env, w, install, opts).Some?
    ensures var f := env.(remote := s);
            var t, target := Update(f, w, install, opts), UpdateTarget(f, w, install, opts);
            && t.r == Err(RelayHealthCheckFailed) && Agree(env.remote, s, |w.trail|)
            && (opts.skipBackup ==> target.Some?
                                    && Runs(t.w, install, Some(target.value.compose), Some(target.value.state)))
            && (!opts.skipBackup ==> Runs(t.w, install, At(w.fs, PlaceOf(install, Compose)), At(w.fs, PlaceOf(install, State))))
  {
    hide CheckUpdates, LoadState, Replace, IsRemotePath, PlaceOf, CanReplace, Runs, CheckPins, UpdateTarget, Agree, Disturb;
    LoadStateIdle(env, w, install);
    IdleSameFs(w, LoadState(env, w, install).w);
    CheckedAt(env, w, install);
    CalmDecides(env, w, install, opts);
    var (v, images) := Decided(env, w, install, opts).value;
    var launch := LaunchOf(env, v, install, opts, images);
    LaunchesFrom(env, v, install, opts, images);
    var k := |launch.trail|;
    s := Disturb(env.remote, k, env.timeout, None);
    Disturbed(env.remote, |w.trail|, k, env.timeout, None);
    AgreeEarlier(env.remote, s, k, |w.trail|);
    var f := env.(remote := s);
    DecidedLocal(env, s, k, w, install, opts);
    ReplaceUnhealthy(env, v, install, opts, images, s);
    if opts.skipBackup {
      NoBackupNoRollback(f, w, install, opts);
    } else {
      RollbackRestores(f, w, install, opts);
    }
  }

  lemma CalmDecides(env: Env, w: World, install: string, opts: UpdateOptions)
    requires IsCalm(env.remote, |w.trail|) && IsRemotePath(install) && CanUpdate(env, w, install, opts)
    requires Decided(env, w, install, opts).Some?
    ensures var (v, images) := Decided(env, w, install, opts).value;
            CanReplace(env, v, install, opts, images) && HasState(env, v.fs, install)
            && v == LoadState(env, w, install).w && |w.trail| <= |v.trail|
  {
    hide LoadState, PlaceOf, IsRemotePath, CanReplace, CheckPins;
    LoadStateIdle(env, w, install);
    LoadedHasStateIfCalm(env, w, install);
    IdleSameFs(w, LoadState(env, w, install).w);
  }

  /** The world in which a calm replacing update starts its health check. */
  function LaunchOf(env: Env, w: World, install: string, opts: UpdateOptions, images: seq<ImageUpdate>): World {
    var launched := Launched(env, Secured(env, w, install, opts).w, install, opts, images, env.wall(|w.trail|));
    if launched.Some? then launched.value.0 else w
  }

  lemma LaunchesFrom(env: Env, w: World, install: string, opts: UpdateOptions, images: seq<ImageUpdate>)
    requires IsCalm(env.remote, |w.trail|) && IsRemotePath(install) && HasState(env, w.fs, install)
    requires CanReplace(env, w, install, opts, images)
    ensures Secured(env, w, install, opts).r.Ok?
    ensures Launched(env, Secured(env, w, install, opts).w, install, opts, images, env.wall(|w.trail|)).Some?
    ensures |w.trail| <= |Secured(env, w, install, opts).w.trail| <= |LaunchOf(env, w, install, opts, images).trail|
  {
    hide TakeBackup, PlaceOf, IsRemotePath, MeetsForeignName, AllValid, BackupDir, Launched;
    var now := env.wall(|w.trail|);
    if !opts.skipBackup {
      CalmTakesBackup(env, w, install, now);
      TakeBackupQuiet(env, w, install, now, State);
    }
    CalmLaunches(env, Secured(env, w, install, opts).w, install, opts, images, now);
  }

  lemma ReplaceUnhealthy(env: Env, w: World, install: string, opts: UpdateOptions, images: seq<ImageUpdate>, s: Schedule)
    requires IsCalm(env.remote, |w.trail|) && IsRemotePath(install) && HasState(env, w.fs, install)
    requires CanReplace(env, w, install, opts, images)
    requires s == Disturb(env.remote, |LaunchOf(env, w, install, opts, images).trail|, env.timeout, None)
    ensures Replace(env.(remote := s), w, install, opts, images).r == Err(RelayHealthCheckFailed)
  {
    hide TakeBackup, Deploy, Settle, PlaceOf, IsRemotePath, MeetsForeignName, AllValid, BackupDir, Launched, Disturb, Agree;
    var f, now := env.(remote := s), env.wall(|w.trail|);
    var dir := if opts.skipBackup then None else Some(now);
    LaunchesFrom(env, w, install, opts, images);
    var b, k := Secured(env, w, install, opts), |LaunchOf(env, w, install, opts, images).trail|;
    Disturbed(env.remote, |w.trail|, k, env.timeout, None);
    SecuredLocal(env, s, k, w, install, opts);
    LaunchedLocal(env, s, k, b.w, install, opts, images, now);
    DeploySettles(f, b.w, install, opts, images, now, DirOf(install, dir));
    var (v, newState, _) := Launched(env, b.w, install, opts, images, now).value;
    if !opts.skipBackup {
      BackupTaken(env, w, install, now);
      LaunchedQuiet(env, b.w, install, opts, images, now, SavedCompose(now));
      LaunchedQuiet(env, b.w, install, opts, images, now, SavedState(now));
    }
    ProbeFailsSettle(f, v, install, now, dir, newState);
  }

  // ---------------------------------------------------------------------------
  // A rollback to a version that never ran
  // ---------------------------------------------------------------------------

  lemma FailedStartLocal(env: Env, t: Schedule, k: nat, w: World, install: string, opts: UpdateOptions)
    requires StartFails(env, w, install, opts) && Agree(env.remote, t, k) && |Update(env, w, install, opts).w.trail| <= k
    ensures Update(env.(remote := t), w, install, opts) == Update(env, w, install, opts)
  {
    assert Decided(env, w, install, opts).Some?;
    hide Update, Written, Secured, RunAll, Decided, UpdateTarget, PlaceOf, IsTransportError, Agree;
    var v, target := Decided(env, w, install, opts).value.0, UpdateTarget(env, w, install, opts).value;
    var b := Secured(env, v, install, opts);
    var written := Written(env, b.w, install, target);
    FailedStartLeavesNewFiles(env, w, install, opts);
    WrittenLocal(env, t, k, w, install, opts);
    RunAllLocal(env.remote, t, k, written.w, [ComposePull(install), ComposeUp(install)]);
    FailedStartLeavesNewFiles(env.(remote := t), w, install, opts);
  }

  /** After a pull or start that failed, let the registry move on and the host be calm from there: there is
      a schedule under which the first update is the same, the next one fails its health check, and the
      rollback starts the compose text of the first, which was never running. */
  lemma RollbackStartsUnstarted(env: Env, w: World, install: string, opts: UpdateOptions, again: UpdateOptions)
    returns (s: Schedule)
    requires StartFails(env, w, install, opts)
    requires var t := Update(env, w, install, opts);
             && t.r.Err? && t.r.error.RemoteCommandFailed? && IsCalm(env.remote, |t.w.trail|)
             && CanUpdate(env, t.w, install, again) && Decided(env, t.w, install, again).Some?
    requires IsRemotePath(install) && !again.skipBackup
    ensures var f, target := env.(remote := s), UpdateTarget(env, w, install, opts);
            var t := Update(f, w, install, opts);
            var u := Update(f, t.w, install, again);
            && t == Update(env, w, install, opts) && t.w.running == w.running
            && target.Some? && u.r == Err(RelayHealthCheckFailed) && u.w.running == Some(target.value.compose)
  {
    hide Update, Decided, UpdateTarget, Written, Secured, RunAll, CanUpdate, PlaceOf, IsRemotePath, IsTransportError, IsCalm;
    var t := Update(env, w, install, opts);
    FailedStartLeavesNewFiles(env, w, install, opts);
    s := HealthCanFail(env, t.w, install, again);
    FailedStartLocal(env, s, |t.w.trail|, w, install, opts);
  }

  // ---------------------------------------------------------------------------
  // A torn state file
  // ---------------------------------------------------------------------------

  lemma {:induction false} PrefixOk(s: Schedule, w: World, a: seq<Cmd>, b: seq<Cmd>)
    requires RunAll(s, w, a + b).r.Ok?
    ensures RunAll(s, w, a).r.Ok?
    decreases |a|
  {
    hide ExecOk;
    if a != [] {
      assert (a + b)[0] == a[0] && (a + b)[1..] == a[1..] + b;
      PrefixOk(s, ExecOk(s, w, a[0]).w, a[1..], b);
    }
  }

  /** The backup commands before the copy of the state file. */
  function FirstCopy(install: string, at: DateTime): seq<Cmd> {
    [MkdirP(PathOf(install, Dir(at), false)), CopyFile(PathOf(install, Compose, false), PathOf(install, SavedCompose(at), false))]
  }

  function StateCopy(install: string, at: DateTime): Cmd {
    CopyFile(PathOf(install, State, false), PathOf(install, SavedState(at), false))
  }

  lemma BackupSplits(install: string, at: DateTime)
    ensures BackupCommands(install, BackupDir(install, at)) == FirstCopy(install, at) + ([StateCopy(install, at)] + [])
  {
    hide PathOf, BackupCommands, BackupDir;
    BackupPaths(install, at);
  }

  lemma FirstCopyQuiet(s: Schedule, w: World, install: string, at: DateTime)
    ensures Quiet(w, RunAll(s, w, FirstCopy(install, at)).w, PlaceOf(install, State))
  {
    hide RunAll, PathOf, PlaceOf, MayChange;
    var l := PlaceOf(install, State);
    MkdirChangesNothing(PathOf(install, Dir(at), false), l);
    CopyChanges(install, PathOf(install, Compose, false), SavedCompose(at), State);
    RunAllQuiet(s, w, FirstCopy(install, at), l);
  }

  lemma TornBackup(s: Schedule, w: World, install: string, at: DateTime, bytes: Bytes, t: Schedule)
    requires IsCalm(s, |w.trail|) && IsRemotePath(install) && at.year <= 9999
    requires At(w.fs, PlaceOf(install, Compose)).Some? && At(w.fs, PlaceOf(install, State)).Some?
    requires t == Disturb(s, |RunAll(s, w, FirstCopy(install, at)).w.trail|, 0, Some(bytes))
    ensures var v := RunAll(t, w, BackupCommands(install, BackupDir(install, at)));
            && v.r == Err(RemoteCommandFailed(1)) && At(v.w.fs, PlaceOf(install, SavedState(at))) == Some(bytes)
            && At(v.w.fs, PlaceOf(install, State)) == At(w.fs, PlaceOf(install, State))
  {
    hide RunAll, ExecOk, PathOf, IsRemotePath, Locate, BackupCommands, BackupDir, FirstCopy, Disturb, Agree, MayChange;
    var a, c := FirstCopy(install, at), StateCopy(install, at);
    var before := RunAll(s, w, a);
    BackupSplits(install, at);
    CalmBackup(s, w, install, at);
    PrefixOk(s, w, a, [c] + []);
    Disturbed(s, |w.trail|, |before.w.trail|, 0, Some(bytes));
    RunAllLocal(s, t, |before.w.trail|, w, a);
    FirstCopyQuiet(s, w, install, at);
    QuietAt(w, before.w, PlaceOf(install, State));
    FileAt(before.w.fs, PlaceOf(install, State));
    PlacesAccepted(install, State, false);
    PlacesAccepted(install, SavedState(at), false);
    CopyTears(t, before.w, c.src, c.dst, bytes);
    CopyChanges(install, c.src, SavedState(at), State);
    DoQuiet(t, before.w, c, PlaceOf(install, State));
    ExecIsDo(t, before.w, c);
    StopsAt(t, w, a, c, []);
  }

  /** For every calm host on which an update with a backup goes ahead, and any bytes, there is a schedule,
      different in one step only, under which the copy of the state file is torn: the update fails and
      leaves just these bytes as the saved state file, and the live one as it was. */
  lemma BackupCanTear(env: Env, w: World, install: string, opts: UpdateOptions, bytes: Bytes) returns (s: Schedule)
    requires IsCalm(env.remote, |w.trail|) && IsRemotePath(install) && CanUpdate(env, w, install, opts)
    requires Decided(env, w, install, opts).Some? && !opts.skipBackup
    ensures var t, at := Update(env.(remote := s), w, install, opts), env.wall(|Decided(env, w, install, opts).value.0.trail|);
            && t.r == Err(RemoteCommandFailed(1)) && At(t.w.fs, PlaceOf(install, SavedState(at))) == Some(bytes)
            && At(t.w.fs, PlaceOf(install, State)) == At(w.fs, PlaceOf(install, State))
  {
    hide LoadState, CheckUpdates, RunAll, BackupCommands, BackupDir, Deploy, PlaceOf, IsRemotePath, MeetsForeignName, AllValid,
         Disturb, Agree;
    LoadStateIdle(env, w, install);
    IdleSameFs(w, LoadState(env, w, install).w);
    CheckedAt(env, w, install);
    CalmDecides(env, w, install, opts);
    var (v, images) := Decided(env, w, install, opts).value;
    var at := env.wall(|v.trail|);
    var before := RunAll(env.remote, v, FirstCopy(install, at));
    var k := |before.w.trail|;
    s := Disturb(env.remote, k, 0, Some(bytes));
    Disturbed(env.remote, |w.trail|, k, 0, Some(bytes));
    DecidedLocal(env, s, k, w, install, opts);
    TornBackup(env.remote, v, install, at, bytes, s);
  }

  function FirstRestore(install: string, at: DateTime): Cmd {
    CopyFile(PathOf(install, SavedCompose(at), false), PathOf(install, Compose, false))
  }

  function StateRestore(install: string, at: DateTime): Cmd {
    CopyFile(PathOf(install, SavedState(at), false), PathOf(install, State, false))
  }

  lemma RestoreSplits(install: string, at: DateTime)
    ensures RestoreCommands(install, BackupDir(install, at)) ==
            [FirstRestore(install, at)] + ([StateRestore(install, at)] + [ComposeUp(install)])
  {
    hide PathOf, RestoreCommands, BackupDir;
    BackupPaths(install, at);
  }

  lemma FirstRestoreQuiet(s: Schedule, w: World, install: string, at: DateTime)
    ensures Quiet(w, RunAll(s, w, [FirstRestore(install, at)]).w, PlaceOf(install, SavedState(at)))
  {
    hide RunAll, PathOf, PlaceOf, MayChange;
    CopyChanges(install, PathOf(install, SavedCompose(at), false), Compose, SavedState(at));
    RunAllQuiet(s, w, [FirstRestore(install, at)], PlaceOf(install, SavedState(at)));
  }

  lemma TornRestore(s: Schedule, w: World, install: string, at: DateTime, bytes: Bytes, t: Schedule)
    requires IsCalm(s, |w.trail|) && IsRemotePath(install) && at.year <= 9999
    requires At(w.fs, PlaceOf(install, SavedCompose(at))).Some? && At(w.fs, PlaceOf(install, SavedState(at))).Some?
    requires t == Disturb(s, |RunAll(s, w, [FirstRestore(install, at)]).w.trail|, 0, Some(bytes))
    ensures var v := RunAll(t, w, RestoreCommands(install, BackupDir(install, at)));
            v.r == Err(RemoteCommandFailed(1)) && At(v.w.fs, PlaceOf(install, State)) == Some(bytes)
  {
    hide RunAll, ExecOk, PathOf, IsRemotePath, Locate, RestoreCommands, BackupDir, FirstRestore, Disturb, Agree;
    var a, c := [FirstRestore(install, at)], StateRestore(install, at);
    var before := RunAll(s, w, a);
    RestoreSplits(install, at);
    CalmRestores(s, w, install, at);
    PrefixOk(s, w, a, [c] + [ComposeUp(install)]);
    Disturbed(s, |w.trail|, |before.w.trail|, 0, Some(bytes));
    RunAllLocal(s, t, |before.w.trail|, w, a);
    FirstRestoreQuiet(s, w, install, at);
    QuietAt(w, before.w, PlaceOf(install, SavedState(at)));
    FileAt(before.w.fs, PlaceOf(install, SavedState(at)));
    PlacesAccepted(install, State, false);
    PlacesAccepted(install, SavedState(at), false);
    CopyTears(t, before.w, c.src, c.dst, bytes);
    StopsAt(t, w, a, c, [ComposeUp(install)]);
  }

  /** The world in which the rollback starts if the first probe of a calm replacing update fails. */
  function UnhealthyOf(env: Env, launch: World): World {
    HealthCheck(env.(remote := Disturb(env.remote, |launch.trail|, env.timeout, None)), launch).w
  }

  /** Step `k` fails the first probe, and a later one tears the copy of the state file. */
  function DisturbBoth(env: Env, install: string, launch: World, now: DateTime, bytes: Bytes): Schedule {
    var s := Disturb(env.remote, |launch.trail|, env.timeout, None);
    Disturb(s, |RunAll(s, UnhealthyOf(env, launch), [FirstRestore(install, now)]).w.trail|, 0, Some(bytes))
  }

  lemma SettleTears(env: Env, w: World, install: string, now: DateTime, newState: RelayState, bytes: Bytes)
    requires IsCalm(env.remote, |w.trail|) && IsRemotePath(install) && now.year <= 9999
    requires At(w.fs, PlaceOf(install, SavedCompose(now))).Some? && At(w.fs, PlaceOf(install, SavedState(now))).Some?
    ensures var s := DisturbBoth(env, install, w, now, bytes);
            var t := Settle(env.(remote := s), w, install, now, Some(BackupDir(install, now)), newState);
            && Agree(env.remote, s, |w.trail|)
            && t.r == Err(RemoteCommandFailed(1)) && At(t.w.fs, PlaceOf(install, State)) == Some(bytes)
  {
    hide HealthCheck, RunAll, RestoreCommands, PlaceOf, IsRemotePath, BackupDir, GcBackups, Disturb, FirstRestore, Do;
    var k, s1 := |w.trail|, Disturb(env.remote, |w.trail|, env.timeout, None);
    Disturbed(env.remote, k, k, env.timeout, None);
    ProbeFails(env.(remote := s1), w);
    var h := UnhealthyOf(env, w);
    var m := |RunAll(s1, h, [FirstRestore(install, now)]).w.trail|;
    var s := Disturb(s1, m, 0, Some(bytes));
    Disturbed(s1, k + 1, m, 0, Some(bytes));
    assert s.outcome(k) == s1.outcome(k) && s.lost(k) == s1.lost(k) && s.delay(k) == s1.delay(k);
    ProbeFails(env.(remote := s), w);
    DoLocal(s1, s, m, w, TcpProbe(HBBS_PORT));
    TornRestore(s1, h, install, now, bytes, s);
  }

  lemma ReplaceTears(env: Env, w: World, install: string, opts: UpdateOptions, images: seq<ImageUpdate>, bytes: Bytes)
    requires IsCalm(env.remote, |w.trail|) && IsRemotePath(install) && HasState(env, w.fs, install)
    requires CanReplace(env, w, install, opts, images) && !opts.skipBackup
    ensures var s := DisturbBoth(env, install, LaunchOf(env, w, install, opts, images), env.wall(|w.trail|), bytes);
            var t := Replace(env.(remote := s), w, install, opts, images);
            && Agree(env.remote, s, |LaunchOf(env, w, install, opts, images).trail|)
            && t.r == Err(RemoteCommandFailed(1)) && At(t.w.fs, PlaceOf(install, State)) == Some(bytes)
  {
    hide TakeBackup, Deploy, Settle, PlaceOf, IsRemotePath, MeetsForeignName, AllValid, BackupDir, Launched, DisturbBoth, Agree;
    var now, launch := env.wall(|w.trail|), LaunchOf(env, w, install, opts, images);
    var s := DisturbBoth(env, install, launch, now, bytes);
    var f, k := env.(remote := s), |launch.trail|;
    LaunchesFrom(env, w, install, opts, images);
    var b := Secured(env, w, install, opts);
    var (v, newState, _) := Launched(env, b.w, install, opts, images, now).value;
    BackupTaken(env, w, install, now);
    LaunchedQuiet(env, b.w, install, opts, images, now, SavedCompose(now));
    LaunchedQuiet(env, b.w, install, opts, images, now, SavedState(now));
    SettleTears(env, v, install, now, newState, bytes);
    SecuredLocal(env, s, k, w, install, opts);
    LaunchedLocal(env, s, k, b.w, install, opts, images, now);
    DeploySettles(f, b.w, install, opts, images, now, Some(BackupDir(install, now)));
  }

  /** And there is one, different in two steps, under which the health check fails and the copy that
      should bring the state file back is torn: the update leaves just these bytes live. */
  lemma RollbackCanTear(env: Env, w: World, install: string, opts: UpdateOptions, bytes: Bytes) returns (s: Schedule)
    requires IsCalm(env.remote, |w.trail|) && IsRemotePath(install) && CanUpdate(env, w, install, opts)
    requires Decided(env, w, install, opts).Some? && !opts.skipBackup
    ensures var t := Update(env.(remote := s), w, install, opts);
            t.r == Err(RemoteCommandFailed(1)) && At(t.w.fs, PlaceOf(install, State)) == Some(bytes)
  {
    hide CheckUpdates, LoadState, Replace, IsRemotePath, PlaceOf, CanReplace, CheckPins, DisturbBoth, Agree;
    CheckedAt(env, w, install);
    CalmDecides(env, w, install, opts);
    var (v, images) := Decided(env, w, install, opts).value;
    var launch := LaunchOf(env, v, install, opts, images);
    LaunchesFrom(env, v, install, opts, images);
    s := DisturbBoth(env, install, launch, env.wall(|v.trail|), bytes);
    ReplaceTears(env, v, install, opts, images, bytes);
    DecidedLocal(env, s, |launch.trail|, w, install, opts);
  }

  // ---------------------------------------------------------------------------
  // A refused name in the collector's way
  // ---------------------------------------------------------------------------

  lemma CalmProbes(env: Env, w: World)
    requires IsCalm(env.remote, |w.trail|)
    ensures var u := Do(env.remote, w, TcpProbe(HBBS_PORT)).w;
            HealthCheck(env, w) == Run(Do(env.remote, u, TcpProbe(HBBR_PORT)).w, Ok(()))
  {
    hide Do;
    var ports := [HBBS_PORT, HBBR_PORT];
    assert ports[1..] == [HBBR_PORT] && [HBBR_PORT][1..] == [];
    CalmProbe(env, w, HBBS_PORT);
    var t := Do(env.remote, w, TcpProbe(HBBS_PORT));
    CalmProbe(env, t.w, HBBR_PORT);
    assert ProbeRound(env, w, ports) == ProbeRound(env, t.w, [HBBR_PORT]);
    assert ProbeRound(env, t.w, [HBBR_PORT]) == Run(Do(env.remote, t.w, TcpProbe(HBBR_PORT)).w, Ok(true));
  }

  lemma CalmHealthLocal(env: Env, t: Schedule, k: nat, w: World)
    requires IsCalm(env.remote, |w.trail|) && IsCalm(t, |w.trail|)
    requires Agree(env.remote, t, k) && |HealthCheck(env, w).w.trail| <= k
    ensures HealthCheck(env.(remote := t), w) == HealthCheck(env, w) && HealthCheck(env, w).r.Ok?
  {
    hide Do, HealthCheck, Agree, IsCalm;
    CalmProbes(env, w);
    CalmProbes(env.(remote := t), w);
    DoLocal(env.remote, t, k, w, TcpProbe(HBBS_PORT));
    DoLocal(env.remote, t, k, Do(env.remote, w, TcpProbe(HBBS_PORT)).w, TcpProbe(HBBR_PORT));
  }

  /** On a calm host the collector reads any right listing the schedule gives it. */
  lemma CalmFinds(s: Schedule, w: World, dir: string)
    requires IsCalm(s, |w.trail|) && IsRemotePath(dir)
    requires ListsBackups(w.fs, Locate(dir), s.outcome(|w.trail|).listing)
    requires IsBytes(PrintListing(dir, s.outcome(|w.trail|).listing))
    ensures var t := Do(s, w, FindBackups(dir)); t.r.Ok? && t.r.value.code == 0
  {
    hide IsRemotePath, Locate, ListsBackups, PrintListing, IsBytes;
    assert Script(FindBackups(dir)) == [Find(dir)] && s.outcome(|w.trail|).exit == 0 && !s.lost(|w.trail|);
  }

  lemma SameListing(fs: Fs, dirs: set<Location>, dir: Location, es: seq<Listed>)
    requires ListsBackups(Fs(map[], dirs), dir, es) && fs.dirs == dirs
    ensures ListsBackups(fs, dir, es)
  {
  }

  /** What the collector of a calm update reads when the schedule lists the backups differently. */
  lemma ReplaceReads(env: Env, w: World, install: string, opts: UpdateOptions, images: seq<ImageUpdate>, listing: seq<Listed>)
    returns (s: Schedule)
    requires IsCalm(env.remote, |w.trail|) && IsRemotePath(install) && HasState(env, w.fs, install)
    requires CanReplace(env, w, install, opts, images)
    requires var dirs := w.fs.dirs + MadeDirs(install, opts, env.wall(|w.trail|));
             ListsBackups(Fs(map[], dirs), Locate(BackupsPath(install)), listing)
    requires IsBytes(PrintListing(BackupsPath(install), listing))
    ensures Agree(env.remote, s, |w.trail|)
    ensures ReplaceListing(env.(remote := s), w, install, opts, images) == Some(listing)
  {
    hide TakeBackup, HealthCheck, Do, PlaceOf, IsRemotePath, MeetsForeignName, AllValid, BackupDir, BackupsPath, Launched, Relist,
         Agree, Locate, MadeDirs, ListsBackups, PrintListing, IsBytes;
    var now := env.wall(|w.trail|);
    LaunchesFrom(env, w, install, opts, images);
    var b, launch := Secured(env, w, install, opts), LaunchOf(env, w, install, opts, images);
    var h := HealthCheck(env, launch);
    var k := |h.w.trail|;
    s := Relist(env.remote, k, listing);
    Relisted(env.remote, |w.trail|, k, listing);
    AgreeEarlier(env.remote, s, k, |w.trail|);
    SecuredLocal(env, s, k, w, install, opts);
    LaunchedLocal(env, s, k, b.w, install, opts, images, now);
    CalmHealthLocal(env, s, k, launch);
    HealthCheckIdle(env, launch);
    IdleSameFs(launch, h.w);
    SecuredDirs(env, w, install, opts);
    LaunchedSameDirs(env, b.w, install, opts, images, now);
    SameListing(h.w.fs, w.fs.dirs + MadeDirs(install, opts, now), Locate(BackupsPath(install)), listing);
    LiveAccepted(install);
    CalmFinds(s, h.w, BackupsPath(install));
  }

  /** For every calm host on which an update goes ahead, and every right listing of its backups in which a
      refused name stands past the first three and before the cutoff, there is a schedule, different only
      in what `find` lists, under which the update fails with the new version live, running and healthy. */
  lemma RefusedNameCanFail(env: Env, w: World, install: string, opts: UpdateOptions, listing: seq<Listed>)
    returns (s: Schedule)
    requires IsCalm(env.remote, |w.trail|) && IsRemotePath(install) && CanUpdate(env, w, install, opts)
    requires Decided(env, w, install, opts).Some?
    requires var at := env.wall(|Decided(env, w, install, opts).value.0.trail|);
             && ListsBackups(Fs(map[], w.fs.dirs + MadeDirs(install, opts, at)), Locate(BackupsPath(install)), listing)
             && IsBytes(PrintListing(BackupsPath(install), listing))
             && StopsCollector(install, listing, at.epoch - RETENTION_SECONDS)
    ensures var f := env.(remote := s);
            var t, target := Update(f, w, install, opts), UpdateTarget(f, w, install, opts);
            && t.r.Err? && target.Some? && HealthyAtTheEnd(t.w.trail, |w.trail|)
            && Runs(t.w, install, Some(target.value.compose), Some(target.value.state))
  {
    hide LoadState, CheckUpdates, IsRemotePath, PlaceOf, CanReplace, CheckPins, MadeDirs, ListsBackups, PrintListing, BackupsPath,
         Locate, Agree, ReplaceListing, ReplaceDoomed, StopsCollector, HasForeignName, HealthyAtTheEnd, Runs, UpdateTarget,
         Update;
    LoadStateIdle(env, w, install);
    IdleSameFs(w, LoadState(env, w, install).w);
    CheckedAt(env, w, install);
    CalmDecides(env, w, install, opts);
    var (v, images) := Decided(env, w, install, opts).value;
    s := ReplaceReads(env, v, install, opts, images, listing);
    var f := env.(remote := s);
    DecidedLocal(env, s, |v.trail|, w, install, opts);
    MeetsIsForeign(f, v, install, opts, images);
    ForeignNameFailsUpdate(f, w, install, opts);
  }
}
