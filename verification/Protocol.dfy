// The lifecycle operations as functions of the world: what each does to the host and what it
// returns, for every behaviour of the host, the registry and the clocks.
module Protocol {
  import opened Wrappers
  import opened Text
  import opened Paths
  import opened Listing
  import opened Commands
  import opened Shell
  import opened State
  import opened Render
  import opened Semver
  import opened Retention

  datatype OsKind = Debian | Ubuntu | Arch

  /** Registry answers by moment and position in the loop that asks; none is a failed request. */
  datatype Registry = Registry(tags: (nat, nat, string) -> Option<seq<string>>,
                               digest: (nat, nat, string, string) -> Option<string>)

  function Answer<T>(o: Option<T>): Result<T> {
    if o.Some? then Ok(o.value) else Err(RegistryApi)
  }

  /** Everything outside the orchestrator, and its health-check settings. */
  datatype Env = Env(remote: Schedule, wall: nat -> DateTime, registry: Registry, toml: Codec,
                     osOf: Bytes -> Option<OsKind>, timeout: nat, interval: nat)

  const HBBS_PORT: Port := 21116
  const HBBR_PORT: Port := 21117

  // ---------------------------------------------------------------------------
  // Reading
  // ---------------------------------------------------------------------------

  function ReadState(env: Env, w: World, install: string): (t: Run<RelayState>)
    ensures |t.w.trail| >= |w.trail|
  {
    var c := ExecOk(env.remote, w, CatFile(StatePath(install)));
    match c.r
    case Err(e) => Run(c.w, Err(e))
    case Ok(raw) =>
      match env.toml.decode(raw)
      case None => Run(c.w, Err(ConfigParse))
      case Some(state) => Run(c.w, Ok(state))
  }

  function ExitsZero(env: Env, w: World, c: Cmd): (t: Run<bool>)
    ensures |t.w.trail| >= |w.trail|
  {
    var t := Do(env.remote, w, c);
    match t.r
    case Err(e) => Run(t.w, Err(e))
    case Ok(out) => Run(t.w, Ok(out.code == 0))
  }

  function LoadState(env: Env, w: World, install: string): (t: Run<RelayState>)
    ensures |t.w.trail| >= |w.trail|
  {
    var t := ExitsZero(env, w, TestFileExists(StatePath(install)));
    match t.r
    case Err(e) => Run(t.w, Err(e))
    case Ok(present) => if present then ReadState(env, t.w, install) else Run(t.w, Err(RelayNotInstalled))
  }

  function LatestTag(tags: seq<string>, pin: ImagePin): string {
    match PickLatestSemver(tags)
    case None => pin.tag
    case Some(t) => t
  }

  function CheckPin(env: Env, at: nat, i: nat, pin: ImagePin): Result<ImageUpdate> {
    var tags :- Answer(env.registry.tags(at, i, pin.repo));
    var tag := LatestTag(tags, pin);
    var digest :- Answer(env.registry.digest(at, i, pin.repo, tag));
    Ok(ImageUpdate(pin.service, pin.repo, pin.tag, pin.digest, tag, digest))
  }

  function CheckPins(env: Env, at: nat, pins: seq<ImagePin>, i: nat): (r: Result<seq<ImageUpdate>>)
    requires i <= |pins|
    ensures r.Ok? ==> |r.value| == |pins| - i
    decreases |pins| - i
  {
    if i == |pins| then Ok([])
    else
      var head :- CheckPin(env, at, i, pins[i]);
      var tail :- CheckPins(env, at, pins, i + 1);
      Ok([head] + tail)
  }

  function CheckUpdates(env: Env, w: World, install: string): (t: Run<seq<ImageUpdate>>)
    ensures |t.w.trail| >= |w.trail|
  {
    var s := LoadState(env, w, install);
    match s.r
    case Err(e) => Run(s.w, Err(e))
    case Ok(state) => Run(s.w, CheckPins(env, |s.w.trail|, state.images, 0))
  }

  // ---------------------------------------------------------------------------
  // Health
  // ---------------------------------------------------------------------------

  /** One round: stops at the first port that does not answer. */
  function ProbeRound(env: Env, w: World, ports: seq<Port>): (t: Run<bool>)
    ensures t.w.clock >= w.clock + if ports == [] then 0 else 1
    ensures |t.w.trail| >= |w.trail|
    decreases |ports|
  {
    if ports == [] then Run(w, Ok(true))
    else
      var t := Do(env.remote, w, TcpProbe(ports[0]));
      match t.r
      case Err(e) => Run(t.w, Err(e))
      case Ok(out) => if out.code != 0 then Run(t.w, Ok(false)) else ProbeRound(env, t.w, ports[1..])
  }

  function Sleep(env: Env, w: World): World {
    w.(clock := w.clock + env.interval + env.remote.oversleep(|w.trail|))
  }

  function HealthLoop(env: Env, w: World, deadline: int): (t: Run<()>)
    ensures |t.w.trail| >= |w.trail|
    decreases deadline - w.clock
  {
    var t := ProbeRound(env, w, [HBBS_PORT, HBBR_PORT]);
    match t.r
    case Err(e) => Run(t.w, Err(e))
    case Ok(true) => Run(t.w, Ok(()))
    case Ok(false) =>
      if t.w.clock >= deadline then Run(t.w, Err(RelayHealthCheckFailed))
      else HealthLoop(env, Sleep(env, t.w), deadline)
  }

  function HealthCheck(env: Env, w: World): (t: Run<()>)
    ensures |t.w.trail| >= |w.trail|
  {
    HealthLoop(env, w, w.clock + env.timeout)
  }

  // ---------------------------------------------------------------------------
  // Update
  // ---------------------------------------------------------------------------

  datatype UpdateOptions = UpdateOptions(template: Bytes, assumeYes: bool, isTty: bool, skipBackup: bool)

  datatype UpdateReport = UpdateReport(changed: bool, newState: RelayState, backupDir: Option<string>, gcDeleted: seq<string>)

  function BackupCommands(install: string, dir: string): seq<Cmd> {
    [MkdirP(dir),
     CopyFile(ComposePath(install), PosixJoin(dir, COMPOSE_FILE)),
     CopyFile(StatePath(install), PosixJoin(dir, STATE_FILE))]
  }

  /** The snapshot of `docker compose config`: only a failing write is fatal. */
  function SaveConfig(env: Env, w: World, install: string, dir: string): (t: Run<()>)
    ensures |t.w.trail| >= |w.trail|
  {
    var c := Do(env.remote, w, ComposeConfig(install));
    match c.r
    case Err(e) => Run(c.w, Err(e))
    case Ok(out) =>
      if out.code != 0 then Run(c.w, Ok(()))
      else RunAll(env.remote, c.w, [WriteFile(PosixJoin(dir, CONFIG_FILE), out.stdout)])
  }

  function TakeBackup(env: Env, w: World, install: string, dir: string): (t: Run<()>)
    ensures |t.w.trail| >= |w.trail|
  {
    var t := RunAll(env.remote, w, BackupCommands(install, dir));
    match t.r
    case Err(e) => Run(t.w, Err(e))
    case Ok(_) => SaveConfig(env, t.w, install, dir)
  }

  function PinsOf(images: seq<ImageUpdate>, now: DateTime): (pins: seq<ImagePin>)
    ensures |pins| == |images|
    ensures forall i :: 0 <= i < |images| ==>
      pins[i] == ImagePin(images[i].service, images[i].repo, images[i].latestTag, images[i].latestDigest, now)
  {
    if images == [] then []
    else
      var u := images[0];
      [ImagePin(u.service, u.repo, u.latestTag, u.latestDigest, now)] + PinsOf(images[1..], now)
  }

  function DeployCommands(install: string, compose: Bytes, state: Bytes): seq<Cmd> {
    [WriteFile(ComposePath(install), compose), WriteFile(StatePath(install), state),
     ComposePull(install), ComposeUp(install)]
  }

  function RestoreCommands(install: string, dir: string): seq<Cmd> {
    [CopyFile(PosixJoin(dir, COMPOSE_FILE), ComposePath(install)),
     CopyFile(PosixJoin(dir, STATE_FILE), StatePath(install)),
     ComposeUp(install)]
  }

  function Rollback(env: Env, w: World, install: string, dir: string): Run<()> {
    var t := RunAll(env.remote, w, RestoreCommands(install, dir));
    match t.r
    case Err(e) => Run(t.w, Err(e))
    case Ok(_) => HealthCheck(env, t.w)
  }

  function DeleteAll(env: Env, w: World, doomed: seq<Entry>, deleted: seq<string>): Run<seq<string>>
    decreases |doomed|
  {
    if doomed == [] then Run(w, Ok(deleted))
    else
      var t := ExecOk(env.remote, w, RemoveTree(doomed[0].path));
      match t.r
      case Err(e) => Run(t.w, Err(e))
      case Ok(_) => DeleteAll(env, t.w, doomed[1..], deleted + [doomed[0].path])
  }

  function GcBackups(env: Env, w: World, install: string, now: DateTime): Run<seq<string>> {
    var t := Do(env.remote, w, FindBackups(BackupsPath(install)));
    match t.r
    case Err(e) => Run(t.w, Err(e))
    case Ok(out) =>
      if out.code != 0 then Run(t.w, Ok([]))
      else DeleteAll(env, t.w, Doomed(ParseListing(out.stdout), now.epoch - RETENTION_SECONDS), [])
  }

  /** After `up`: collect garbage if healthy, roll back if not and a backup was taken. */
  function Settle(env: Env, w: World, install: string, now: DateTime, dir: Option<string>, newState: RelayState)
    : Run<UpdateReport>
  {
    var h := HealthCheck(env, w);
    match h.r
    case Err(e) =>
      if dir.None? then Run(h.w, Err(e))
      else
        var b := Rollback(env, h.w, install, dir.value);
        Run(b.w, Err(if b.r.Err? then b.r.error else RelayHealthCheckFailed))
    case Ok(_) =>
      var g := GcBackups(env, h.w, install, now);
      match g.r
      case Err(e) => Run(g.w, Err(e))
      case Ok(deleted) => Run(g.w, Ok(UpdateReport(true, newState, dir, deleted)))
  }

  function Deploy(env: Env, w: World, install: string, opts: UpdateOptions, images: seq<ImageUpdate>, now: DateTime,
                  dir: Option<string>): Run<UpdateReport>
  {
    var l := LoadState(env, w, install);
    match l.r
    case Err(e) => Run(l.w, Err(e))
    case Ok(state) =>
      var pins := PinsOf(images, now);
      var newState := ApplyUpdate(state, pins, now);
      match RenderPins(opts.template, pins)
      case Err(e) => Run(l.w, Err(e))
      case Ok(compose) =>
        var t := RunAll(env.remote, l.w, DeployCommands(install, compose, env.toml.encode(newState)));
        match t.r
        case Err(e) => Run(t.w, Err(e))
        case Ok(_) => Settle(env, t.w, install, now, dir, newState)
  }

  /** The part of an update that changes the host. */
  function Replace(env: Env, w: World, install: string, opts: UpdateOptions, images: seq<ImageUpdate>): Run<UpdateReport> {
    var now := env.wall(|w.trail|);
    var dir := BackupDir(install, now);
    if opts.skipBackup then Deploy(env, w, install, opts, images, now, None)
    else
      var b := TakeBackup(env, w, install, dir);
      match b.r
      case Err(e) => Run(b.w, Err(e))
      case Ok(_) => Deploy(env, b.w, install, opts, images, now, Some(dir))
  }

  function Update(env: Env, w: World, install: string, opts: UpdateOptions): Run<UpdateReport> {
    if !opts.assumeYes && !opts.isTty then Run(w, Err(RelayUpdateNotConfirmed))
    else
      var c := CheckUpdates(env, w, install);
      match c.r
      case Err(e) => Run(c.w, Err(e))
      case Ok(images) =>
        if AnyUpdate(images) then Replace(env, c.w, install, opts, images)
        else
          var s := LoadState(env, c.w, install);
          match s.r
          case Err(e) => Run(s.w, Err(e))
          case Ok(state) => Run(s.w, Ok(UpdateReport(false, state, None, [])))
  }

  // ---------------------------------------------------------------------------
  // Bootstrap
  // ---------------------------------------------------------------------------

  datatype BootstrapOptions = BootstrapOptions(
    template: Bytes, envContents: Bytes, repo: string, tag: string, services: seq<string>, version: string,
    osHint: Option<OsKind>)

  datatype BootstrapReport = BootstrapReport(state: RelayState, publicKey: Option<Bytes>, alreadyInstalled: bool, os: OsKind)

  function DetectOs(env: Env, w: World, hint: Option<OsKind>): Run<OsKind> {
    if hint.Some? then Run(w, Ok(hint.value))
    else
      var t := ExecOk(env.remote, w, ReadOsRelease);
      match t.r
      case Err(e) => Run(t.w, Err(e))
      case Ok(raw) =>
        match env.osOf(raw)
        case None => Run(t.w, Err(RelayUnsupportedOs))
        case Some(os) => Run(t.w, Ok(os))
  }

  function EnsureDockerStack(env: Env, w: World): Run<()> {
    var d := ExitsZero(env, w, CheckDockerPresent);
    match d.r
    case Err(e) => Run(d.w, Err(e))
    case Ok(false) => Run(d.w, Err(DockerEngineNotInstalled))
    case Ok(true) =>
      var v2 := ExitsZero(env, d.w, CheckComposeV2);
      match v2.r
      case Err(e) => Run(v2.w, Err(e))
      case Ok(true) => Run(v2.w, Ok(()))
      case Ok(false) =>
        var v1 := ExitsZero(env, v2.w, CheckComposeV1);
        match v1.r
        case Err(e) => Run(v1.w, Err(e))
        case Ok(legacy) => Run(v1.w, Err(if legacy then DockerComposeV1Detected else DockerEngineNotInstalled))
  }

  function ReadPublicKey(env: Env, w: World, install: string): Run<Option<Bytes>> {
    var t := ExecOk(env.remote, w, CatFile(KeyPath(install)));
    Run(t.w, Ok(if t.r.Ok? then Some(t.r.value) else None))
  }

  function WithKey(env: Env, w: World, install: string, state: RelayState, already: bool, os: OsKind): Run<BootstrapReport> {
    var k := ReadPublicKey(env, w, install);
    Run(k.w, Ok(BootstrapReport(state, if k.r.Ok? then k.r.value else None, already, os)))
  }

  function Existing(env: Env, w: World, install: string, os: OsKind): Run<BootstrapReport> {
    var t := ExitsZero(env, w, TestFileExists(StatePath(install)));
    match t.r
    case Err(e) => Run(t.w, Err(e))
    case Ok(false) => Run(t.w, Err(RelayForeignInstall))
    case Ok(true) =>
      var s := ReadState(env, t.w, install);
      match s.r
      case Err(e) => Run(s.w, Err(e))
      case Ok(state) => WithKey(env, s.w, install, state, true, os)
  }

  function ResolvePins(env: Env, at: nat, opts: BootstrapOptions, now: DateTime, i: nat): (r: Result<seq<ImagePin>>)
    requires i <= |opts.services|
    ensures r.Ok? ==> |r.value| == |opts.services| - i
    decreases |opts.services| - i
  {
    if i == |opts.services| then Ok([])
    else
      var digest :- Answer(env.registry.digest(at, i, opts.repo, opts.tag));
      var tail :- ResolvePins(env, at, opts, now, i + 1);
      Ok([ImagePin(opts.services[i], opts.repo, opts.tag, digest, now)] + tail)
  }

  function InstallCommands(install: string, compose: Bytes, envContents: Bytes, state: Bytes): seq<Cmd> {
    [MkdirP(install), MkdirP(DataPath(install)), MkdirP(BackupsPath(install)),
     WriteFile(ComposePath(install), compose), WriteFile(EnvPath(install), envContents),
     WriteFile(StatePath(install), state), ComposeUp(install)]
  }

  function Fresh(env: Env, w: World, install: string, opts: BootstrapOptions, os: OsKind): Run<BootstrapReport> {
    var now := env.wall(|w.trail|);
    match ResolvePins(env, |w.trail|, opts, now, 0)
    case Err(e) => Run(w, Err(e))
    case Ok(pins) =>
      match RenderPins(opts.template, pins)
      case Err(e) => Run(w, Err(e))
      case Ok(compose) =>
        var state := NewBootstrap(now, opts.version, pins);
        var t := RunAll(env.remote, w, InstallCommands(install, compose, opts.envContents, env.toml.encode(state)));
        match t.r
        case Err(e) => Run(t.w, Err(e))
        case Ok(_) =>
          var h := HealthCheck(env, t.w);
          match h.r
          case Err(e) => Run(h.w, Err(e))
          case Ok(_) => WithKey(env, h.w, install, state, false, os)
  }

  /** What comes before any decision: the OS, the docker stack, and whether the directory exists. */
  function Survey(env: Env, w: World, install: string, hint: Option<OsKind>): Run<(OsKind, bool)> {
    var o := DetectOs(env, w, hint);
    match o.r
    case Err(e) => Run(o.w, Err(e))
    case Ok(os) =>
      var d := EnsureDockerStack(env, o.w);
      match d.r
      case Err(e) => Run(d.w, Err(e))
      case Ok(_) =>
        var t := ExitsZero(env, d.w, TestDirExists(install));
        match t.r
        case Err(e) => Run(t.w, Err(e))
        case Ok(present) => Run(t.w, Ok((os, present)))
  }

  function Bootstrap(env: Env, w: World, install: string, opts: BootstrapOptions): Run<BootstrapReport> {
    var s := Survey(env, w, install, opts.osHint);
    match s.r
    case Err(e) => Run(s.w, Err(e))
    case Ok((os, present)) =>
      if present then Existing(env, s.w, install, os) else Fresh(env, s.w, install, opts, os)
  }
}
