// Rejected paths: below an accepted install path no command of the protocol is refused for its
// path, so a path error cannot interrupt an operation that has begun to write.
module PathSafety {
  import opened Wrappers
  import opened Text
  import opened Paths
  import opened Validators
  import opened Listing
  import opened Commands
  import opened Shell
  import opened ShellFacts
  import opened State
  import opened Render
  import opened Retention
  import opened Protocol
  import opened RunFacts
  import opened UpdateFacts
  import opened UpdateTheorems
  import opened Recovery

  predicate AllAccepted(cs: seq<Cmd>) {
    forall c :: c in cs ==> Accepts(c)
  }

  lemma LiveAccepted(install: string)
    requires IsRemotePath(install)
    ensures IsRemotePath(ComposePath(install)) && IsRemotePath(EnvPath(install)) && IsRemotePath(StatePath(install))
    ensures IsRemotePath(DataPath(install)) && IsRemotePath(BackupsPath(install)) && IsRemotePath(KeyPath(install))
  {
    assert !IsDated(Compose) && !IsDated(Place.Env) && !IsDated(State) && !IsDated(Data) && !IsDated(Backups) && !IsDated(Key);
    hide *;
    HelpersNamePlaces(install, Instant(0, 1970, 1, 1, 0, 0, 0));
    PlacesAccepted(install, Compose, false);
    PlacesAccepted(install, Place.Env, false);
    PlacesAccepted(install, State, false);
    PlacesAccepted(install, Data, false);
    PlacesAccepted(install, Backups, false);
    PlacesAccepted(install, Key, false);
  }

  lemma DatedPathsAccepted(install: string, at: DateTime)
    requires IsRemotePath(install)
    ensures var dir := BackupDir(install, at);
            && (IsRemotePath(dir) <==> at.year <= 9999)
            && (IsRemotePath(PosixJoin(dir, COMPOSE_FILE)) <==> at.year <= 9999)
            && (IsRemotePath(PosixJoin(dir, STATE_FILE)) <==> at.year <= 9999)
            && (IsRemotePath(PosixJoin(dir, CONFIG_FILE)) <==> at.year <= 9999)
  {
    hide IsRemotePath, PathOf, BackupDir, PosixJoin;
    HelpersNamePlaces(install, at);
    PlacesAccepted(install, Dir(at), false);
    PlacesAccepted(install, SavedCompose(at), false);
    PlacesAccepted(install, SavedState(at), false);
    PlacesAccepted(install, SavedConfig(at), false);
  }

  /** The single commands of the protocol, outside its lists, but for the deletions. */
  function SingleCommands(install: string): seq<Cmd> {
    [ReadOsRelease, CheckDockerPresent, CheckComposeV2, CheckComposeV1, TestDirExists(install),
     TestFileExists(StatePath(install)), CatFile(StatePath(install)), CatFile(KeyPath(install)), ComposeConfig(install),
     TcpProbe(HBBS_PORT), TcpProbe(HBBR_PORT), FindBackups(BackupsPath(install))]
  }

  /** Every command of the protocol but the deletions, whose paths come from the listing, is accepted;
      those that name a backup exactly up to year 9999. */
  lemma CommandsAccepted(install: string, at: DateTime, a: Bytes, b: Bytes, c: Bytes)
    requires IsRemotePath(install)
    ensures AllAccepted(DeployCommands(install, a, b)) && AllAccepted(InstallCommands(install, a, b, c))
    ensures AllAccepted(SingleCommands(install))
    ensures AllAccepted(BackupCommands(install, BackupDir(install, at))) <==> at.year <= 9999
    ensures AllAccepted([WriteFile(PosixJoin(BackupDir(install, at), CONFIG_FILE), a)]) <==> at.year <= 9999
    ensures AllAccepted(RestoreCommands(install, BackupDir(install, at))) <==> at.year <= 9999
  {
    hide AllAccepted, IsRemotePath;
    UndatedAccepted(install, a, b, c);
    DatedAccepted(install, at, a);
  }

  lemma UndatedAccepted(install: string, a: Bytes, b: Bytes, c: Bytes)
    requires IsRemotePath(install)
    ensures AllAccepted(DeployCommands(install, a, b)) && AllAccepted(InstallCommands(install, a, b, c))
    ensures AllAccepted(SingleCommands(install))
  {
    hide IsRemotePath, ComposePath, EnvPath, StatePath, DataPath, BackupsPath, KeyPath;
    LiveAccepted(install);
  }

  lemma DatedAccepted(install: string, at: DateTime, a: Bytes)
    requires IsRemotePath(install)
    ensures AllAccepted(BackupCommands(install, BackupDir(install, at))) <==> at.year <= 9999
    ensures AllAccepted([WriteFile(PosixJoin(BackupDir(install, at), CONFIG_FILE), a)]) <==> at.year <= 9999
    ensures AllAccepted(RestoreCommands(install, BackupDir(install, at))) <==> at.year <= 9999
  {
    hide IsRemotePath, ComposePath, EnvPath, StatePath, DataPath, BackupsPath, KeyPath, BackupDir, PosixJoin;
    LiveAccepted(install);
    DatedPathsAccepted(install, at);
    var dir := BackupDir(install, at);
    assert BackupCommands(install, dir)[0] in BackupCommands(install, dir);
    assert RestoreCommands(install, dir)[0] in RestoreCommands(install, dir);
    var save := WriteFile(PosixJoin(dir, CONFIG_FILE), a);
    assert save in [save];
  }

  predicate IsPathError<T>(r: Result<T>) {
    r.Err? && r.error.InvalidRelayPath?
  }

  lemma AcceptedNoPathError(s: Schedule, w: World, c: Cmd)
    requires Accepts(c)
    ensures !IsPathError(Do(s, w, c).r) && !IsPathError(ExecOk(s, w, c).r)
  {
    hide Accepts, RunScript;
  }

  lemma {:induction false} RunAllNoPathError(s: Schedule, w: World, cs: seq<Cmd>)
    requires AllAccepted(cs)
    ensures !IsPathError(RunAll(s, w, cs).r)
    decreases |cs|
  {
    hide Accepts, ExecOk;
    if cs != [] {
      assert cs[0] in cs;
      AcceptedNoPathError(s, w, cs[0]);
      RunAllNoPathError(s, ExecOk(s, w, cs[0]).w, cs[1..]);
    }
  }

  lemma {:induction false} HealthNoPathError(env: Env, w: World, deadline: int)
    ensures !IsPathError(HealthLoop(env, w, deadline).r)
    decreases deadline - w.clock
  {
    hide ProbeRound;
    var t := ProbeRound(env, w, [HBBS_PORT, HBBR_PORT]);
    RoundNoPathError(env, w, [HBBS_PORT, HBBR_PORT]);
    if t.r == Ok(false) && t.w.clock < deadline {
      HealthNoPathError(env, Sleep(env, t.w), deadline);
    }
  }

  lemma {:induction false} RoundNoPathError(env: Env, w: World, ports: seq<Port>)
    ensures !IsPathError(ProbeRound(env, w, ports).r)
    decreases |ports|
  {
    hide Do;
    if ports != [] {
      AcceptedNoPathError(env.remote, w, TcpProbe(ports[0]));
      RoundNoPathError(env, Do(env.remote, w, TcpProbe(ports[0])).w, ports[1..]);
    }
  }

  lemma LoadNoPathError(env: Env, w: World, install: string)
    requires IsRemotePath(install)
    ensures !IsPathError(LoadState(env, w, install).r)
  {
    hide Do, ExecOk, StatePath, IsRemotePath;
    LiveAccepted(install);
    var c := TestFileExists(StatePath(install));
    AcceptedNoPathError(env.remote, w, c);
    AcceptedNoPathError(env.remote, Do(env.remote, w, c).w, CatFile(StatePath(install)));
  }

  lemma {:induction false} DeleteAllPathError(env: Env, w: World, doomed: seq<Entry>, deleted: seq<string>)
    ensures IsPathError(DeleteAll(env, w, doomed, deleted).r) ==> exists e :: e in doomed && !IsRemotePath(e.path)
    decreases |doomed|
  {
    hide ExecOk, IsRemotePath;
    if doomed != [] {
      var c := RemoveTree(doomed[0].path);
      if IsRemotePath(doomed[0].path) {
        AcceptedNoPathError(env.remote, w, c);
      }
      assert doomed[0] in doomed;
      var t := ExecOk(env.remote, w, c);
      DeleteAllPathError(env, t.w, doomed[1..], deleted + [doomed[0].path]);
    }
  }

  /** Someone else's directory among the backups, with a name the allowlist refuses. */
  predicate HasForeignName(doomed: seq<Entry>) {
    exists e :: e in doomed && !IsRemotePath(e.path)
  }

  lemma GcPathError(env: Env, w: World, install: string, now: DateTime)
    requires IsRemotePath(install)
    ensures IsPathError(GcBackups(env, w, install, now).r) ==> HasForeignName(GcDoomed(env, w, install, now))
  {
    hide Do, ParseListing, Doomed, DeleteAll, BackupsPath, IsRemotePath;
    LiveAccepted(install);
    var c := FindBackups(BackupsPath(install));
    AcceptedNoPathError(env.remote, w, c);
    var t := Do(env.remote, w, c);
    if t.r.Ok? && t.r.value.code == 0 {
      DeleteAllPathError(env, t.w, GcDoomed(env, w, install, now), []);
    }
  }

  lemma SettlePathError(env: Env, w: World, install: string, now: DateTime, dir: Option<DateTime>, newState: RelayState)
    requires IsRemotePath(install) && (dir.Some? ==> dir.value.year <= 9999)
    ensures IsPathError(Settle(env, w, install, now, DirOf(install, dir), newState).r)
            ==> HasForeignName(SettleDoomed(env, w, install, now))
  {
    hide HealthLoop, GcBackups, RunAll, BackupDir, GcDoomed, IsRemotePath, RestoreCommands, HasForeignName;
    HealthNoPathError(env, w, w.clock + env.timeout);
    var h := HealthCheck(env, w);
    GcPathError(env, h.w, install, now);
    if dir.Some? {
      CommandsAccepted(install, dir.value, "", "", "");
      var cs := RestoreCommands(install, BackupDir(install, dir.value));
      RunAllNoPathError(env.remote, h.w, cs);
      var t := RunAll(env.remote, h.w, cs);
      HealthNoPathError(env, t.w, t.w.clock + env.timeout);
    }
  }

  lemma DeployPathError(env: Env, w: World, install: string, opts: UpdateOptions, images: seq<ImageUpdate>, now: DateTime,
                        dir: Option<DateTime>)
    requires IsRemotePath(install) && (dir.Some? ==> dir.value.year <= 9999)
    ensures IsPathError(Deploy(env, w, install, opts, images, now, DirOf(install, dir)).r)
            ==> HasForeignName(DeployDoomed(env, w, install, opts, images, now))
  {
    hide LoadState, RunAll, RenderPins, Settle, DeployCommands, SettleDoomed, BackupDir, IsRemotePath, HasForeignName;
    LoadNoPathError(env, w, install);
    var l := LoadState(env, w, install);
    if l.r.Ok? {
      var newState := ApplyUpdate(l.r.value, PinsOf(images, now), now);
      var compose := RenderPins(opts.template, PinsOf(images, now));
      RenderErrors(opts.template, PinsOf(images, now));
      if compose.Ok? {
        CommandsAccepted(install, now, compose.value, env.toml.encode(newState), "");
        var cs := DeployCommands(install, compose.value, env.toml.encode(newState));
        RunAllNoPathError(env.remote, l.w, cs);
        SettlePathError(env, RunAll(env.remote, l.w, cs).w, install, now, dir, newState);
      }
    }
  }

  lemma BackupPathError(env: Env, w: World, install: string, at: DateTime)
    requires IsRemotePath(install)
    ensures at.year <= 9999 ==> !IsPathError(TakeBackup(env, w, install, BackupDir(install, at)).r)
    ensures at.year > 9999 ==> TakeBackup(env, w, install, BackupDir(install, at)).w == w
                               && TakeBackup(env, w, install, BackupDir(install, at)).r.Err?
  {
    hide IsRemotePath, BackupDir, PosixJoin, ComposePath, StatePath, RunScript;
    DatedPathsAccepted(install, at);
    var dir := BackupDir(install, at);
    if at.year <= 9999 {
      hide Do, RunAll;
      CommandsAccepted(install, at, "", "", "");
      RunAllNoPathError(env.remote, w, BackupCommands(install, dir));
      var t := RunAll(env.remote, w, BackupCommands(install, dir));
      AcceptedNoPathError(env.remote, t.w, ComposeConfig(install));
      var c := Do(env.remote, t.w, ComposeConfig(install));
      if c.r.Ok? {
        RunAllNoPathError(env.remote, c.w, [WriteFile(PosixJoin(dir, CONFIG_FILE), c.r.value.stdout)]);
      }
    }
  }

  /** An update of an accepted install path that fails with a path error has changed nothing at all,
      or its collector, which runs only after a healthy start, met a foreign directory whose name the
      allowlist refuses. */
  lemma UpdatePathErrors(env: Env, w: World, install: string, opts: UpdateOptions)
    requires IsRemotePath(install) && IsPathError(Update(env, w, install, opts).r)
    ensures Idle(w, Update(env, w, install, opts).w)
            || (Decided(env, w, install, opts).Some?
                && var (v, images) := Decided(env, w, install, opts).value;
                HasForeignName(ReplaceDoomed(env, v, install, opts, images)))
  {
    hide CheckUpdates, LoadState, Replace, Idle, IsRemotePath, ReplaceDoomed, HasForeignName;
    IdleSelf(w);
    CheckUpdatesIdle(env, w, install);
    var c := CheckUpdates(env, w, install);
    LoadStateIdle(env, c.w, install);
    IdleTransitive(w, c.w, LoadState(env, c.w, install).w);
    if c.r.Ok? && AnyUpdate(c.r.value) {
      ReplacePathError(env, c.w, install, opts, c.r.value);
    }
  }

  lemma ReplacePathError(env: Env, w: World, install: string, opts: UpdateOptions, images: seq<ImageUpdate>)
    requires IsRemotePath(install) && IsPathError(Replace(env, w, install, opts, images).r)
    ensures Replace(env, w, install, opts, images).w == w || HasForeignName(ReplaceDoomed(env, w, install, opts, images))
  {
    hide TakeBackup, Deploy, BackupDir, IsRemotePath, DeployDoomed, HasForeignName;
    var now := env.wall(|w.trail|);
    if opts.skipBackup {
      DeployPathError(env, w, install, opts, images, now, None);
    } else {
      BackupPathError(env, w, install, now);
      var b := TakeBackup(env, w, install, BackupDir(install, now));
      if b.r.Ok? {
        DeployPathError(env, b.w, install, opts, images, now, Some(now));
      }
    }
  }

  /** A bootstrap of an accepted install path never fails with a path error. */
  lemma BootstrapNoPathError(env: Env, w: World, install: string, opts: BootstrapOptions)
    requires IsRemotePath(install)
    ensures !IsPathError(Bootstrap(env, w, install, opts).r)
  {
    hide Survey, Existing, Fresh, IsRemotePath;
    SurveyNoPathError(env, w, install, opts.osHint);
    var s := Survey(env, w, install, opts.osHint);
    if s.r.Ok? {
      ExistingNoPathError(env, s.w, install, s.r.value.0);
      FreshNoPathError(env, s.w, install, opts, s.r.value.0);
    }
  }

  lemma CheckNoPathError(env: Env, w: World, c: Cmd)
    requires Accepts(c)
    ensures !IsPathError(ExitsZero(env, w, c).r)
  {
    hide Do, Accepts;
    AcceptedNoPathError(env.remote, w, c);
  }

  lemma SurveyNoPathError(env: Env, w: World, install: string, hint: Option<OsKind>)
    requires IsRemotePath(install)
    ensures !IsPathError(Survey(env, w, install, hint).r)
  {
    hide ExecOk, ExitsZero, IsRemotePath;
    AcceptedNoPathError(env.remote, w, ReadOsRelease);
    var o := DetectOs(env, w, hint);
    StackNoPathError(env, o.w);
    CheckNoPathError(env, EnsureDockerStack(env, o.w).w, TestDirExists(install));
  }

  lemma StackNoPathError(env: Env, w: World)
    ensures !IsPathError(EnsureDockerStack(env, w).r)
  {
    hide ExitsZero;
    var d := ExitsZero(env, w, CheckDockerPresent);
    var v2 := ExitsZero(env, d.w, CheckComposeV2);
    CheckNoPathError(env, w, CheckDockerPresent);
    CheckNoPathError(env, d.w, CheckComposeV2);
    CheckNoPathError(env, v2.w, CheckComposeV1);
  }

  lemma ExistingNoPathError(env: Env, w: World, install: string, os: OsKind)
    requires IsRemotePath(install)
    ensures !IsPathError(Existing(env, w, install, os).r)
  {
    hide ExitsZero, ExecOk, StatePath, KeyPath, IsRemotePath;
    LiveAccepted(install);
    var c := TestFileExists(StatePath(install));
    CheckNoPathError(env, w, c);
    AcceptedNoPathError(env.remote, ExitsZero(env, w, c).w, CatFile(StatePath(install)));
  }

  lemma HealthCheckNoPathError(env: Env, w: World)
    ensures !IsPathError(HealthCheck(env, w).r)
  {
    HealthNoPathError(env, w, w.clock + env.timeout);
  }

  lemma InstallNoPathError(env: Env, w: World, install: string, now: DateTime, compose: Bytes, envText: Bytes, state: Bytes)
    requires IsRemotePath(install)
    ensures !IsPathError(RunAll(env.remote, w, InstallCommands(install, compose, envText, state)).r)
  {
    hide RunAll, InstallCommands, IsRemotePath;
    CommandsAccepted(install, now, compose, envText, state);
    RunAllNoPathError(env.remote, w, InstallCommands(install, compose, envText, state));
  }

  lemma FreshNoPathError(env: Env, w: World, install: string, opts: BootstrapOptions, os: OsKind)
    requires IsRemotePath(install)
    ensures !IsPathError(Fresh(env, w, install, opts, os).r)
  {
    hide RunAll, HealthCheck, RenderPins, InstallCommands, WithKey, IsRemotePath, ResolvePins;
    var now := env.wall(|w.trail|);
    var pins := ResolvePins(env, |w.trail|, opts, now, 0);
    ResolveErrors(env, |w.trail|, opts, now, 0);
    if pins.Ok? {
      RenderErrors(opts.template, pins.value);
      var compose := RenderPins(opts.template, pins.value);
      if compose.Ok? {
        var state := env.toml.encode(NewBootstrap(now, opts.version, pins.value));
        InstallNoPathError(env, w, install, now, compose.value, opts.envContents, state);
        var t := RunAll(env.remote, w, InstallCommands(install, compose.value, opts.envContents, state));
        HealthCheckNoPathError(env, t.w);
        KeyNoError(env, HealthCheck(env, t.w).w, install, NewBootstrap(now, opts.version, pins.value), os);
      }
    }
  }

  lemma KeyNoError(env: Env, w: World, install: string, state: RelayState, os: OsKind)
    ensures WithKey(env, w, install, state, false, os).r.Ok?
  {
    hide ExecOk;
  }

  lemma {:induction false} ResolveErrors(env: Env, at: nat, opts: BootstrapOptions, now: DateTime, i: nat)
    requires i <= |opts.services|
    ensures ResolvePins(env, at, opts, now, i).Err? ==> ResolvePins(env, at, opts, now, i).error == RegistryApi
    decreases |opts.services| - i
  {
    if i < |opts.services| {
      ResolveErrors(env, at, opts, now, i + 1);
    }
  }
}
