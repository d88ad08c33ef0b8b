// What the errors of the operations mean for the host, and which failures are not errors.
module Failures {
  import opened Wrappers
  import opened Paths
  import opened Validators
  import opened Commands
  import opened Shell
  import opened ShellFacts
  import opened State
  import opened Render
  import opened Protocol
  import opened RunFacts
  import opened UpdateFacts
  import opened UpdateTheorems
  import opened Recovery
  import opened Lineage
  import opened LiveFiles
  import opened Convergence
  import opened Decisions
  import opened PathSafety

  // ---------------------------------------------------------------------------
  // Failures that do and do not count
  // ---------------------------------------------------------------------------

  /** The snapshot of `docker compose config` is optional: once both copies went through, a reply that reports
      its failure does not fail the backup, and leaves the tree as it is. */
  lemma SnapshotNotFatal(env: Env, w: World, install: string, dir: string)
    requires RunAll(env.remote, w, BackupCommands(install, dir)).r.Ok?
    requires var n := |RunAll(env.remote, w, BackupCommands(install, dir)).w.trail|;
             && !env.remote.lost(n) && IsRemotePath(install)
             && (env.remote.outcome(n).exit != 0 || env.remote.outcome(n + 1).exit != 0)
    ensures var t := TakeBackup(env, w, install, dir);
            t.r == Ok(()) && t.w.fs == RunAll(env.remote, w, BackupCommands(install, dir)).w.fs
  {
    hide RunAll, BackupCommands, IsRemotePath, Idle;
    var v := RunAll(env.remote, w, BackupCommands(install, dir)).w;
    ConfigFails(env.remote, v, install);
    DoIdle(env.remote, v, ComposeConfig(install));
    IdleSameFs(v, Do(env.remote, v, ComposeConfig(install)).w);
  }

  lemma ConfigFails(s: Schedule, w: World, install: string)
    requires IsRemotePath(install) && !s.lost(|w.trail|)
    requires s.outcome(|w.trail|).exit != 0 || s.outcome(|w.trail| + 1).exit != 0
    ensures var t := Do(s, w, ComposeConfig(install)); t.r.Ok? && t.r.value.code != 0
  {
    hide IsRemotePath, Locate;
    var prims := Script(ComposeConfig(install));
    assert prims == [ChangeDir(install), Config] && prims[1..] == [Config];
    var e := Apply(ChangeDir(install), [], w.fs, w.running, s.outcome(|w.trail|));
    var v := After(w, ChangeDir(install), e);
    if e.code == 0 {
      assert RunScript(s, w, [], prims) == RunScript(s, v, e.cwd, [Config]);
    }
  }

  /** The last step of a run is a probe that failed and whose reply arrived. */
  predicate EndsUnanswered(env: Env, trail: seq<Event>) {
    && trail != [] && trail[|trail| - 1].prim.Probe? && trail[|trail| - 1].code != 0
    && !env.remote.lost(|trail| - 1)
  }

  lemma ProbeEnds(env: Env, w: World, port: Port)
    ensures var t, e := Do(env.remote, w, TcpProbe(port)), Do(env.remote, w, TcpProbe(port)).w.trail;
            && |e| == |w.trail| + 1 && e[|w.trail|].prim == Probe(port)
            && (t.r.Err? <==> env.remote.lost(|w.trail|))
            && (t.r.Err? ==> t.r.error == SshConnection)
            && (t.r.Ok? ==> t.r.value.code == e[|w.trail|].code)
  {
  }

  lemma {:induction false} RoundEnds(env: Env, w: World, ports: seq<Port>)
    requires ports != []
    ensures var t := ProbeRound(env, w, ports);
            && |t.w.trail| > |w.trail|
            && (t.r == Ok(false) ==> EndsUnanswered(env, t.w.trail))
            && (t.r.Err? ==> t.r.error == SshConnection && env.remote.lost(|t.w.trail| - 1))
    decreases |ports|
  {
    hide Do;
    ProbeEnds(env, w, ports[0]);
    var t := Do(env.remote, w, TcpProbe(ports[0]));
    if t.r.Ok? && t.r.value.code == 0 {
      if |ports| > 1 {
        RoundEnds(env, t.w, ports[1..]);
      } else {
        assert ports[1..] == [];
      }
    }
  }

  /** A health check reports a failed check exactly when its last probe was answered with a failure, and
      otherwise, if it fails, that the connection was lost. */
  lemma {:induction false} HealthEnds(env: Env, w: World, deadline: int)
    ensures var t := HealthLoop(env, w, deadline);
            t.r.Err? ==> || (t.r.error == RelayHealthCheckFailed && EndsUnanswered(env, t.w.trail))
                         || (t.r.error == SshConnection && env.remote.lost(|t.w.trail| - 1))
    decreases deadline - w.clock
  {
    hide ProbeRound, EndsUnanswered;
    var ports := [HBBS_PORT, HBBR_PORT];
    RoundEnds(env, w, ports);
    var t := ProbeRound(env, w, ports);
    if t.r == Ok(false) && t.w.clock < deadline {
      HealthEnds(env, Sleep(env, t.w), deadline);
    }
  }

  /** Without a backup the error is the health check's own: a failed check is reported only on a last probe
      that was answered with a failure, not on a lost connection. */
  lemma UnhealthyWithoutBackup(env: Env, w: World, install: string, opts: UpdateOptions)
    requires opts.skipBackup && Update(env, w, install, opts).r == Err(RelayHealthCheckFailed)
    ensures EndsUnanswered(env, Update(env, w, install, opts).w.trail)
  {
    hide CheckUpdates, LoadState, Deploy, Launched, HealthLoop, GcBackups, EndsUnanswered;
    CheckUpdatesErrors(env, w, install);
    var c := CheckUpdates(env, w, install);
    LoadStateErrors(env, c.w, install);
    var images, now := c.r.value, env.wall(|c.w.trail|);
    DeploySettles(env, c.w, install, opts, images, now, None);
    var v := Launched(env, c.w, install, opts, images, now).value.0;
    HealthEnds(env, v, v.clock + env.timeout);
    GcErrors(env, HealthCheck(env, v).w, install, now);
  }

  /** When `docker compose config` goes through, the backup holds its output. */
  lemma SnapshotSaved(env: Env, w: World, install: string, at: DateTime)
    requires TakeBackup(env, w, install, BackupDir(install, at)).r.Ok?
    requires var v := RunAll(env.remote, w, BackupCommands(install, BackupDir(install, at))).w;
             env.remote.outcome(|v.trail|).exit == 0 && env.remote.outcome(|v.trail| + 1).exit == 0
    ensures var v := RunAll(env.remote, w, BackupCommands(install, BackupDir(install, at))).w;
            At(TakeBackup(env, w, install, BackupDir(install, at)).w.fs, PlaceOf(install, SavedConfig(at))) ==
            Some(env.remote.outcome(|v.trail| + 1).stdout)
  {
    hide RunAll, BackupCommands, PathOf, BackupDir, PosixJoin, Succeeds;
    var dir := BackupDir(install, at);
    HelpersNamePlaces(install, at);
    var v := RunAll(env.remote, w, BackupCommands(install, dir)).w;
    ConfigPrints(env.remote, v, install);
    var c := Do(env.remote, v, ComposeConfig(install));
    var write := WriteFile(PathOf(install, SavedConfig(at), false), c.r.value.stdout);
    RunAllStep(env.remote, c.w, [write]);
    WritePlaces(env.remote, c.w, install, SavedConfig(at), c.r.value.stdout, Compose);
    assert [write][1..] == [];
    RunAllNone(env.remote, ExecOk(env.remote, c.w, write).w);
  }

  lemma ConfigPrints(s: Schedule, w: World, install: string)
    requires s.outcome(|w.trail|).exit == 0 && s.outcome(|w.trail| + 1).exit == 0
    ensures var t := Do(s, w, ComposeConfig(install));
            t.r.Ok? ==> t.r.value == Output(s.outcome(|w.trail| + 1).stdout, 0)
  {
    hide IsRemotePath, Locate;
    var prims := Script(ComposeConfig(install));
    assert prims == [ChangeDir(install), Config] && prims[1..] == [Config];
    var e := Apply(ChangeDir(install), [], w.fs, w.running, s.outcome(|w.trail|));
    var v := After(w, ChangeDir(install), e);
    assert RunScript(s, w, [], prims) == RunScript(s, v, e.cwd, [Config]);
  }

  // ---------------------------------------------------------------------------
  // What an error says
  // ---------------------------------------------------------------------------

  /** Errors that come before anything live is written. */
  predicate IsPreliminary(e: Error) {
    e.RelayUpdateNotConfirmed? || e.RelayNotInstalled? || e.ConfigParse? || e.RegistryApi? || e.InvalidImageRef?
  }

  /** An update fails with such an error, or because a command failed, was refused or lost, or on the health
      check; and such an error means that neither live file nor what is running was touched at any step. */
  lemma UpdateErrorMeans(env: Env, w: World, install: string, opts: UpdateOptions)
    requires Update(env, w, install, opts).r.Err?
    ensures var t := Update(env, w, install, opts);
            && (IsPreliminary(t.r.error) || IsTransportError(t.r.error) || t.r.error == RelayHealthCheckFailed)
            && (IsPreliminary(t.r.error) ==>
                  && Quiet(w, t.w, PlaceOf(install, Compose)) && Quiet(w, t.w, PlaceOf(install, State))
                  && t.w.running == w.running)
  {
    hide CheckUpdates, LoadState, Replace, PlaceOf, Quiet, Secured, DeployTarget;
    CheckUpdatesErrors(env, w, install);
    CheckUpdatesIdle(env, w, install);
    var c := CheckUpdates(env, w, install);
    LoadStateErrors(env, c.w, install);
    LoadStateIdle(env, c.w, install);
    IdleIsQuiet(w, c.w, PlaceOf(install, Compose));
    IdleIsQuiet(w, c.w, PlaceOf(install, State));
    QuietSelf(w, PlaceOf(install, Compose));
    QuietSelf(w, PlaceOf(install, State));
    if Decided(env, w, install, opts).Some? {
      ReplaceErrorMeans(env, c.w, install, opts, c.r.value);
      LiveOldOrNew(env, w, install, opts, Compose);
      LiveOldOrNew(env, w, install, opts, State);
    } else {
      var l := LoadState(env, c.w, install).w;
      IdleTransitive(w, c.w, l);
      IdleIsQuiet(w, l, PlaceOf(install, Compose));
      IdleIsQuiet(w, l, PlaceOf(install, State));
    }
  }

  lemma ReplaceErrorMeans(env: Env, w: World, install: string, opts: UpdateOptions, images: seq<ImageUpdate>)
    requires Replace(env, w, install, opts, images).r.Err?
    ensures var t := Replace(env, w, install, opts, images);
            && (IsPreliminary(t.r.error) || IsTransportError(t.r.error) || t.r.error == RelayHealthCheckFailed)
            && (IsPreliminary(t.r.error) ==> ReplaceTarget(env, w, install, opts, images).None? && t.w.running == w.running)
  {
    hide TakeBackup, Deploy, BackupDir, DeployTarget;
    var now, b := env.wall(|w.trail|), Secured(env, w, install, opts);
    var dir := BackupDir(install, now);
    SecuredRuns(env, w, install, opts);
    TakeBackupErrors(env, w, install, dir);
    if b.r.Ok? {
      DeployErrorMeans(env, b.w, install, opts, images, now, if opts.skipBackup then None else Some(dir));
    }
  }

  lemma DeployErrorMeans(env: Env, w: World, install: string, opts: UpdateOptions, images: seq<ImageUpdate>, now: DateTime,
                         dir: Option<string>)
    requires Deploy(env, w, install, opts, images, now, dir).r.Err?
    ensures var t := Deploy(env, w, install, opts, images, now, dir);
            && (IsPreliminary(t.r.error) || IsTransportError(t.r.error) || t.r.error == RelayHealthCheckFailed)
            && (IsPreliminary(t.r.error) ==> DeployTarget(env, w, install, opts, images, now).None? && t.w.running == w.running)
  {
    hide LoadState, RunAll, RenderPins, DeployCommands, HealthCheck, GcBackups, Rollback;
    LoadStateErrors(env, w, install);
    LoadStateIdle(env, w, install);
    RenderErrors(opts.template, PinsOf(images, now));
    var l := LoadState(env, w, install);
    if l.r.Ok? && RenderPins(opts.template, PinsOf(images, now)).Ok? {
      var compose := RenderPins(opts.template, PinsOf(images, now)).value;
      var newState := ApplyUpdate(l.r.value, PinsOf(images, now), now);
      var cs := DeployCommands(install, compose, env.toml.encode(newState));
      RunAllErrors(env.remote, l.w, cs);
      var v := RunAll(env.remote, l.w, cs).w;
      HealthErrors(env, v);
      var h := HealthCheck(env, v).w;
      GcErrors(env, h, install, now);
      if dir.Some? {
        RollbackErrors(env, h, install, dir.value);
      }
    }
  }

  /** After a rollback that ends in the report of a failed health check, the restored version has been probed:
      the run ends with a full healthy round, or with a probe of it that failed. */
  lemma RolledBackProbed(env: Env, w: World, install: string, opts: UpdateOptions)
    requires !opts.skipBackup && Update(env, w, install, opts).r == Err(RelayHealthCheckFailed)
    ensures var t := Update(env, w, install, opts); EndsHealthy(t.w.trail) || EndsUnanswered(env, t.w.trail)
  {
    hide CheckUpdates, LoadState, TakeBackup, Deploy, Launched, Rollback, HealthCheck, GcBackups, BackupDir, EndsHealthy,
      EndsUnanswered;
    CheckUpdatesErrors(env, w, install);
    var c := CheckUpdates(env, w, install);
    LoadStateErrors(env, c.w, install);
    var images, now := c.r.value, env.wall(|c.w.trail|);
    var dir := BackupDir(install, now);
    TakeBackupErrors(env, c.w, install, dir);
    var b := TakeBackup(env, c.w, install, dir);
    DeploySettles(env, b.w, install, opts, images, now, Some(dir));
    var v := Launched(env, b.w, install, opts, images, now).value.0;
    var h := HealthCheck(env, v);
    GcErrors(env, h.w, install, now);
    RollbackProbed(env, h.w, install, dir);
  }

  lemma RollbackProbed(env: Env, w: World, install: string, dir: string)
    ensures var t := Rollback(env, w, install, dir);
            && (t.r.Ok? ==> EndsHealthy(t.w.trail))
            && (t.r == Err(RelayHealthCheckFailed) ==> EndsUnanswered(env, t.w.trail))
  {
    hide RunAll, HealthLoop, RestoreCommands, EndsHealthy, EndsUnanswered;
    var t := RunAll(env.remote, w, RestoreCommands(install, dir));
    RunAllErrors(env.remote, w, RestoreCommands(install, dir));
    HealthEnds(env, t.w, t.w.clock + env.timeout);
    if t.r.Ok? && HealthCheck(env, t.w).r.Ok? {
      HealthCheckEndsHealthy(env, t.w);
    }
  }

  /** A bootstrap that fails other than by a command or on the health check has written nothing; one that
      fails on the health check has installed what it prepared and left it running, with its last probe
      answered by a failure. */
  lemma BootstrapErrorMeans(env: Env, w: World, install: string, opts: BootstrapOptions)
    requires Bootstrap(env, w, install, opts).r.Err?
    ensures var t := Bootstrap(env, w, install, opts);
            var prepared := Prepared(env, Survey(env, w, install, opts.osHint).w, opts);
            && (!IsTransportError(t.r.error) && t.r.error != RelayHealthCheckFailed ==> Idle(w, t.w))
            && (t.r.error == RelayHealthCheckFailed ==>
                  && prepared.Some? && EndsUnanswered(env, t.w.trail)
                  && Runs(t.w, install, Some(prepared.value.1), Some(env.toml.encode(prepared.value.0))))
  {
    hide Survey, Existing, Fresh, Prepared, Idle, PlaceOf, EndsUnanswered, IsTransportError;
    var s := Survey(env, w, install, opts.osHint);
    SurveyIdle(env, w, install, opts.osHint);
    SurveyErrors(env, w, install, opts.osHint);
    NotHealth();
    if s.r.Ok? {
      var (os, present) := s.r.value;
      if present {
        ExistingIdle(env, s.w, install, os);
        IdleTransitive(w, s.w, Existing(env, s.w, install, os).w);
        ExistingVerdict(env, s.w, install, os);
      } else {
        FreshErrorMeans(env, s.w, install, opts, os);
        if Idle(s.w, Fresh(env, s.w, install, opts, os).w) {
          IdleTransitive(w, s.w, Fresh(env, s.w, install, opts, os).w);
        }
      }
    }
  }

  lemma NotHealth()
    ensures !IsTransportError(RelayHealthCheckFailed) && !IsSurveyError(RelayHealthCheckFailed)
  {
  }

  lemma FreshErrorMeans(env: Env, w: World, install: string, opts: BootstrapOptions, os: OsKind)
    requires Fresh(env, w, install, opts, os).r.Err?
    ensures var t, prepared := Fresh(env, w, install, opts, os), Prepared(env, w, opts);
            && (!IsTransportError(t.r.error) && t.r.error != RelayHealthCheckFailed ==> Idle(w, t.w))
            && (t.r.error == RelayHealthCheckFailed ==>
                  && prepared.Some? && EndsUnanswered(env, t.w.trail)
                  && Runs(t.w, install, Some(prepared.value.1), Some(env.toml.encode(prepared.value.0))))
  {
    hide RunAll, HealthLoop, RenderPins, ResolvePins, InstallCommands, WithKey, PlaceOf, EndsUnanswered, IsTransportError;
    NotHealth();
    IdleSelf(w);
    FreshEarly(env, w, opts);
    if Prepared(env, w, opts).Some? {
      var (state, compose) := Prepared(env, w, opts).value;
      var cs := InstallCommands(install, compose, opts.envContents, env.toml.encode(state));
      RunAllErrors(env.remote, w, cs);
      var t := RunAll(env.remote, w, cs);
      if t.r.Ok? {
        InstallHolds(env.remote, w, install, compose, opts.envContents, env.toml.encode(state));
        HealthEnds(env, t.w, t.w.clock + env.timeout);
        LostIsTransport();
        HealthCheckIdle(env, t.w);
        IdleSameRun(t.w, HealthCheck(env, t.w).w);
        WithKeyReports(env, HealthCheck(env, t.w).w, install, state, false, os);
      }
    }
  }

  lemma LostIsTransport()
    ensures IsTransportError(SshConnection)
  {
  }

  lemma FreshEarly(env: Env, w: World, opts: BootstrapOptions)
    ensures var pins := ResolvePins(env, |w.trail|, opts, env.wall(|w.trail|), 0);
            && (pins.Err? ==> pins.error == RegistryApi)
            && (pins.Ok? && RenderPins(opts.template, pins.value).Err? ==>
                  RenderPins(opts.template, pins.value).error.InvalidImageRef?)
  {
    hide RenderPins;
    ResolveErrors(env, |w.trail|, opts, env.wall(|w.trail|), 0);
    var pins := ResolvePins(env, |w.trail|, opts, env.wall(|w.trail|), 0);
    if pins.Ok? {
      RenderErrors(opts.template, pins.value);
    }
  }
}
