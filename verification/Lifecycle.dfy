// The orchestrator as the program runs it: methods that send command lines to a mutable host,
// each proved to do exactly what the protocol function of the same name says.
module Lifecycle {
  import opened Wrappers
  import opened Text
  import opened Paths
  import opened Listing
  import opened Commands
  import opened Shell
  import opened State
  import opened Render
  import opened Semver
  import opened Retention
  import opened Protocol

  /** The host behind the transport. */
  class RemoteHost {
    const env: Env
    var world: World

    constructor (env: Env, world: World)
      ensures this.env == env && this.world == world
    {
      this.env, this.world := env, world;
    }

    method Exec(command: string) returns (r: Result<Output>)
      modifies this
      ensures Run(world, r) == Shell.Exec(env.remote, old(world), command)
    {
      var t := Shell.Exec(env.remote, world, command);
      world, r := t.w, t.r;
    }

    method Sleep()
      modifies this
      ensures world == Protocol.Sleep(env, old(world))
    {
      world := Protocol.Sleep(env, world);
    }
  }

  /** One turn of the collector's loop. */
  lemma DeleteStep(env: Env, w: World, sorted: seq<Entry>, cutoff: int, idx: nat, deleted: seq<string>)
    requires idx < |sorted|
    ensures DeleteAll(env, w, DoomedFrom(sorted, cutoff, idx), deleted) ==
            if idx >= MIN_RETAINED_BACKUPS && sorted[idx].epoch < cutoff then
              var t := ExecOk(env.remote, w, RemoveTree(sorted[idx].path));
              if t.r.Err? then Run(t.w, Err(t.r.error))
              else DeleteAll(env, t.w, DoomedFrom(sorted, cutoff, idx + 1), deleted + [sorted[idx].path])
            else DeleteAll(env, w, DoomedFrom(sorted, cutoff, idx + 1), deleted)
  {
    hide ExecOk;
    var rest := DoomedFrom(sorted, cutoff, idx + 1);
    assert ([sorted[idx]] + rest)[1..] == rest && [] + rest == rest;
  }

  lemma DeleteNone(env: Env, w: World, sorted: seq<Entry>, cutoff: int, deleted: seq<string>)
    ensures DeleteAll(env, w, DoomedFrom(sorted, cutoff, |sorted|), deleted) == Run(w, Ok(deleted))
  {
  }

  class RelayLifecycle {
    const host: RemoteHost

    constructor (host: RemoteHost)
      ensures this.host == host
    {
      this.host := host;
    }

    method Send(c: Cmd) returns (r: Result<Output>)
      modifies host
      ensures Run(host.world, r) == Do(host.env.remote, old(host.world), c)
    {
      DoRunsTheCommandLine(host.env.remote, host.world, c);
      var line := Build(c);
      if line.Err? {
        return Err(line.error);
      }
      r := host.Exec(line.value);
    }

    method SendOk(c: Cmd) returns (r: Result<Bytes>)
      modifies host
      ensures Run(host.world, r) == ExecOk(host.env.remote, old(host.world), c)
    {
      hide Do;
      var out := Send(c);
      if out.Err? {
        return Err(out.error);
      }
      if out.value.code != 0 {
        return Err(RemoteCommandFailed(out.value.code));
      }
      return Ok(out.value.stdout);
    }

    method SendAll(cs: seq<Cmd>) returns (r: Result<()>)
      modifies host
      ensures Run(host.world, r) == RunAll(host.env.remote, old(host.world), cs)
    {
      hide ExecOk;
      var i := 0;
      while i < |cs|
        invariant 0 <= i <= |cs|
        invariant RunAll(host.env.remote, old(host.world), cs) == RunAll(host.env.remote, host.world, cs[i..])
      {
        var out := SendOk(cs[i]);
        if out.Err? {
          return Err(out.error);
        }
        assert cs[i..][1..] == cs[i + 1..];
        i := i + 1;
      }
      return Ok(());
    }

    method ExitsZero(c: Cmd) returns (r: Result<bool>)
      modifies host
      ensures Run(host.world, r) == Protocol.ExitsZero(host.env, old(host.world), c)
    {
      hide Do;
      var out := Send(c);
      if out.Err? {
        return Err(out.error);
      }
      return Ok(out.value.code == 0);
    }

    method ReadState(install: string) returns (r: Result<RelayState>)
      modifies host
      ensures Run(host.world, r) == Protocol.ReadState(host.env, old(host.world), install)
    {
      hide ExecOk;
      var raw := SendOk(CatFile(StatePath(install)));
      if raw.Err? {
        return Err(raw.error);
      }
      var state := host.env.toml.decode(raw.value);
      return if state.Some? then Ok(state.value) else Err(ConfigParse);
    }

    method LoadState(install: string) returns (r: Result<RelayState>)
      modifies host
      ensures Run(host.world, r) == Protocol.LoadState(host.env, old(host.world), install)
    {
      hide Protocol.ReadState, Protocol.ExitsZero;
      var present := ExitsZero(TestFileExists(StatePath(install)));
      if present.Err? {
        return Err(present.error);
      }
      if !present.value {
        return Err(RelayNotInstalled);
      }
      r := ReadState(install);
    }

    method CheckUpdates(install: string) returns (r: Result<seq<ImageUpdate>>)
      modifies host
      ensures Run(host.world, r) == Protocol.CheckUpdates(host.env, old(host.world), install)
    {
      hide Protocol.LoadState;
      var state := LoadState(install);
      if state.Err? {
        return Err(state.error);
      }
      var pins, at := state.value.images, |host.world.trail|;
      var updates: seq<ImageUpdate> := [];
      PrependNothing(CheckPins(host.env, at, pins, 0));
      var i := 0;
      while i < |pins|
        invariant 0 <= i <= |pins| && |updates| == i
        invariant host.world == Protocol.LoadState(host.env, old(host.world), install).w
        invariant CheckPins(host.env, at, pins, 0) == Prepend(updates, CheckPins(host.env, at, pins, i))
      {
        var tags := host.env.registry.tags(at, i, pins[i].repo);
        if tags.None? {
          return Err(RegistryApi);
        }
        var latest := PickLatest(tags.value);
        var tag := if latest.Some? then latest.value else pins[i].tag;
        var digest := host.env.registry.digest(at, i, pins[i].repo, tag);
        if digest.None? {
          return Err(RegistryApi);
        }
        var u := ImageUpdate(pins[i].service, pins[i].repo, pins[i].tag, pins[i].digest, tag, digest.value);
        PrependStep(updates, u, CheckPins(host.env, at, pins, i + 1));
        updates := updates + [u];
        i := i + 1;
      }
      assert updates + [] == updates;
      return Ok(updates);
    }

    method ProbeRound() returns (r: Result<bool>)
      modifies host
      ensures Run(host.world, r) == Protocol.ProbeRound(host.env, old(host.world), [HBBS_PORT, HBBR_PORT])
    {
      hide Do;
      var ports := [HBBS_PORT, HBBR_PORT];
      var i := 0;
      while i < |ports|
        invariant 0 <= i <= |ports|
        invariant Protocol.ProbeRound(host.env, old(host.world), ports) ==
                  Protocol.ProbeRound(host.env, host.world, ports[i..])
      {
        var out := Send(TcpProbe(ports[i]));
        if out.Err? {
          return Err(out.error);
        }
        if out.value.code != 0 {
          return Ok(false);
        }
        assert ports[i..][1..] == ports[i + 1..];
        i := i + 1;
      }
      return Ok(true);
    }

    method HealthCheck() returns (r: Result<()>)
      modifies host
      ensures Run(host.world, r) == Protocol.HealthCheck(host.env, old(host.world))
    {
      hide Protocol.ProbeRound;
      var deadline := host.world.clock + host.env.timeout;
      while true
        invariant Protocol.HealthCheck(host.env, old(host.world)) == HealthLoop(host.env, host.world, deadline)
        decreases deadline - host.world.clock
      {
        ghost var before := host.world;
        var up := ProbeRound();
        if up.Err? {
          return Err(up.error);
        }
        if up.value {
          return Ok(());
        }
        if host.world.clock >= deadline {
          return Err(RelayHealthCheckFailed);
        }
        host.Sleep();
      }
    }

    method Rollback(install: string, dir: string) returns (r: Result<()>)
      modifies host
      ensures Run(host.world, r) == Protocol.Rollback(host.env, old(host.world), install, dir)
    {
      hide RunAll, Protocol.HealthCheck;
      var t := SendAll(RestoreCommands(install, dir));
      if t.Err? {
        return Err(t.error);
      }
      r := HealthCheck();
    }

    method GcBackups(install: string, now: DateTime) returns (r: Result<seq<string>>)
      modifies host
      ensures Run(host.world, r) == Protocol.GcBackups(host.env, old(host.world), install, now)
    {
      hide Do, ExecOk, ParseListing, SortNewestFirst, DeleteAll, DoomedFrom, BackupsPath;
      ghost var env, whole := host.env, Protocol.GcBackups(host.env, host.world, install, now);
      var out := Send(FindBackups(BackupsPath(install)));
      if out.Err? {
        return Err(out.error);
      }
      if out.value.code != 0 {
        return Ok([]);
      }
      var entries := SortNewestFirst(ParseListing(out.value.stdout));
      var cutoff := now.epoch - RETENTION_SECONDS;
      var deleted: seq<string> := [];
      var idx := 0;
      while idx < |entries|
        invariant 0 <= idx <= |entries|
        invariant whole == DeleteAll(env, host.world, DoomedFrom(entries, cutoff, idx), deleted)
      {
        DeleteStep(env, host.world, entries, cutoff, idx, deleted);
        if idx >= MIN_RETAINED_BACKUPS && entries[idx].epoch < cutoff {
          var removed := SendOk(RemoveTree(entries[idx].path));
          if removed.Err? {
            return Err(removed.error);
          }
          deleted := deleted + [entries[idx].path];
        }
        idx := idx + 1;
      }
      DeleteNone(env, host.world, entries, cutoff, deleted);
      return Ok(deleted);
    }

    method TakeBackup(install: string, dir: string) returns (r: Result<()>)
      modifies host
      ensures Run(host.world, r) == Protocol.TakeBackup(host.env, old(host.world), install, dir)
    {
      hide Do, RunAll;
      var copied := SendAll(BackupCommands(install, dir));
      if copied.Err? {
        return Err(copied.error);
      }
      var config := Send(ComposeConfig(install));
      if config.Err? {
        return Err(config.error);
      }
      if config.value.code == 0 {
        r := SendAll([WriteFile(PosixJoin(dir, CONFIG_FILE), config.value.stdout)]);
        return;
      }
      return Ok(());
    }

    method Settle(install: string, now: DateTime, dir: Option<string>, newState: RelayState)
      returns (r: Result<UpdateReport>)
      modifies host
      ensures Run(host.world, r) == Protocol.Settle(host.env, old(host.world), install, now, dir, newState)
    {
      hide Protocol.HealthCheck, Protocol.Rollback, Protocol.GcBackups;
      var health := HealthCheck();
      if health.Err? {
        if dir.Some? {
          var restored := Rollback(install, dir.value);
          if restored.Err? {
            return Err(restored.error);
          }
          return Err(RelayHealthCheckFailed);
        }
        return Err(health.error);
      }
      var deleted := GcBackups(install, now);
      if deleted.Err? {
        return Err(deleted.error);
      }
      return Ok(UpdateReport(true, newState, dir, deleted.value));
    }

    method Deploy(install: string, opts: UpdateOptions, images: seq<ImageUpdate>, now: DateTime, dir: Option<string>)
      returns (r: Result<UpdateReport>)
      modifies host
      ensures Run(host.world, r) == Protocol.Deploy(host.env, old(host.world), install, opts, images, now, dir)
    {
      hide Protocol.LoadState, RunAll, Protocol.Settle, DeployCommands, RenderPins;
      var loaded := LoadState(install);
      if loaded.Err? {
        return Err(loaded.error);
      }
      var pins := PinsOf(images, now);
      var newState := ApplyUpdate(loaded.value, pins, now);
      var compose := RenderComposeWithPins(opts.template, pins);
      if compose.Err? {
        return Err(compose.error);
      }
      var sent := SendAll(DeployCommands(install, compose.value, host.env.toml.encode(newState)));
      if sent.Err? {
        return Err(sent.error);
      }
      r := Settle(install, now, dir, newState);
    }

    method Update(install: string, opts: UpdateOptions) returns (r: Result<UpdateReport>)
      modifies host
      ensures Run(host.world, r) == Protocol.Update(host.env, old(host.world), install, opts)
    {
      hide Protocol.CheckUpdates, Protocol.LoadState, Protocol.TakeBackup, Protocol.Deploy, BackupDir;
      if !opts.assumeYes && !opts.isTty {
        return Err(RelayUpdateNotConfirmed);
      }
      var report := CheckUpdates(install);
      if report.Err? {
        return Err(report.error);
      }
      if !AnyUpdate(report.value) {
        var state := LoadState(install);
        if state.Err? {
          return Err(state.error);
        }
        return Ok(UpdateReport(false, state.value, None, []));
      }
      var now := host.env.wall(|host.world.trail|);
      var dir := None;
      if !opts.skipBackup {
        dir := Some(BackupDir(install, now));
        var saved := TakeBackup(install, dir.value);
        if saved.Err? {
          return Err(saved.error);
        }
      }
      r := Deploy(install, opts, report.value, now, dir);
    }

    method DetectOs(hint: Option<OsKind>) returns (r: Result<OsKind>)
      modifies host
      ensures Run(host.world, r) == Protocol.DetectOs(host.env, old(host.world), hint)
    {
      hide ExecOk;
      if hint.Some? {
        return Ok(hint.value);
      }
      var raw := SendOk(ReadOsRelease);
      if raw.Err? {
        return Err(raw.error);
      }
      var os := host.env.osOf(raw.value);
      return if os.Some? then Ok(os.value) else Err(RelayUnsupportedOs);
    }

    method EnsureDockerStack() returns (r: Result<()>)
      modifies host
      ensures Run(host.world, r) == Protocol.EnsureDockerStack(host.env, old(host.world))
    {
      hide Protocol.ExitsZero;
      var docker := ExitsZero(CheckDockerPresent);
      if docker.Err? {
        return Err(docker.error);
      }
      if !docker.value {
        return Err(DockerEngineNotInstalled);
      }
      var v2 := ExitsZero(CheckComposeV2);
      if v2.Err? {
        return Err(v2.error);
      }
      if !v2.value {
        var v1 := ExitsZero(CheckComposeV1);
        if v1.Err? {
          return Err(v1.error);
        }
        return Err(if v1.value then DockerComposeV1Detected else DockerEngineNotInstalled);
      }
      return Ok(());
    }

    method WithKey(install: string, state: RelayState, already: bool, os: OsKind) returns (r: Result<BootstrapReport>)
      modifies host
      ensures Run(host.world, r) == Protocol.WithKey(host.env, old(host.world), install, state, already, os)
    {
      hide ExecOk;
      var key := SendOk(CatFile(KeyPath(install)));
      return Ok(BootstrapReport(state, if key.Ok? then Some(key.value) else None, already, os));
    }

    method Existing(install: string, os: OsKind) returns (r: Result<BootstrapReport>)
      modifies host
      ensures Run(host.world, r) == Protocol.Existing(host.env, old(host.world), install, os)
    {
      hide Protocol.ExitsZero, Protocol.ReadState, Protocol.WithKey;
      var ours := ExitsZero(TestFileExists(StatePath(install)));
      if ours.Err? {
        return Err(ours.error);
      }
      if !ours.value {
        return Err(RelayForeignInstall);
      }
      var state := ReadState(install);
      if state.Err? {
        return Err(state.error);
      }
      r := WithKey(install, state.value, true, os);
    }

    method Fresh(install: string, opts: BootstrapOptions, os: OsKind) returns (r: Result<BootstrapReport>)
      modifies host
      ensures Run(host.world, r) == Protocol.Fresh(host.env, old(host.world), install, opts, os)
    {
      hide RunAll, Protocol.HealthCheck, Protocol.WithKey, RenderPins, InstallCommands;
      var now, at := host.env.wall(|host.world.trail|), |host.world.trail|;
      var pins: seq<ImagePin> := [];
      PrependNothing(ResolvePins(host.env, at, opts, now, 0));
      var i := 0;
      while i < |opts.services|
        invariant 0 <= i <= |opts.services| && host.world == old(host.world)
        invariant ResolvePins(host.env, at, opts, now, 0) == Prepend(pins, ResolvePins(host.env, at, opts, now, i))
      {
        var digest := host.env.registry.digest(at, i, opts.repo, opts.tag);
        if digest.None? {
          return Err(RegistryApi);
        }
        var pin := ImagePin(opts.services[i], opts.repo, opts.tag, digest.value, now);
        PrependStep(pins, pin, ResolvePins(host.env, at, opts, now, i + 1));
        pins := pins + [pin];
        i := i + 1;
      }
      assert pins + [] == pins;
      var compose := RenderComposeWithPins(opts.template, pins);
      if compose.Err? {
        return Err(compose.error);
      }
      var state := NewBootstrap(now, opts.version, pins);
      var sent := SendAll(InstallCommands(install, compose.value, opts.envContents, host.env.toml.encode(state)));
      if sent.Err? {
        return Err(sent.error);
      }
      var health := HealthCheck();
      if health.Err? {
        return Err(health.error);
      }
      r := WithKey(install, state, false, os);
    }

    method Bootstrap(install: string, opts: BootstrapOptions) returns (r: Result<BootstrapReport>)
      modifies host
      ensures Run(host.world, r) == Protocol.Bootstrap(host.env, old(host.world), install, opts)
    {
      hide Protocol.DetectOs, Protocol.EnsureDockerStack, Protocol.ExitsZero, Protocol.Existing, Protocol.Fresh;
      var os := DetectOs(opts.osHint);
      if os.Err? {
        return Err(os.error);
      }
      var docker := EnsureDockerStack();
      if docker.Err? {
        return Err(docker.error);
      }
      var present := ExitsZero(TestDirExists(install));
      if present.Err? {
        return Err(present.error);
      }
      if present.value {
        r := Existing(install, os.value);
      } else {
        r := Fresh(install, opts, os.value);
      }
    }
  }

  function Prepend<T>(us: seq<T>, r: Result<seq<T>>): Result<seq<T>> {
    if r.Ok? then Ok(us + r.value) else r
  }

  lemma PrependNothing<T>(r: Result<seq<T>>)
    ensures Prepend([], r) == r
  {
    if r.Ok? {
      assert [] + r.value == r.value;
    }
  }

  lemma PrependStep<T>(us: seq<T>, u: T, r: Result<seq<T>>)
    ensures Prepend(us + [u], r) == Prepend(us, Prepend([u], r))
  {
    if r.Ok? {
      assert us + [u] + r.value == us + ([u] + r.value);
    }
  }
}
