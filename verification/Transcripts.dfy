// What the host is made to run, step by step: the simple commands of whole runs, in order, and none
// besides.
module Transcripts {
  import opened Wrappers
  import opened Text
  import opened Paths
  import opened Validators
  import opened Listing
  import opened Commands
  import opened Shell
  import opened State
  import opened Render
  import opened Protocol
  import opened RunFacts
  import opened UpdateFacts
  import opened UpdateTheorems
  import opened Recovery
  import opened LiveFiles
  import opened PathSafety
  import opened Collection
  import opened Convergence
  import opened Decisions
  import opened Progress
  import Base64

  // ---------------------------------------------------------------------------
  // The steps between two worlds
  // ---------------------------------------------------------------------------

  /** From `w` to `v` the host ran exactly these simple commands. */
  predicate Ran(w: World, v: World, prims: seq<Prim>) {
    && w.trail <= v.trail && |v.trail| == |w.trail| + |prims|
    && forall i :: 0 <= i < |prims| ==> v.trail[|w.trail| + i].prim == prims[i]
  }

  lemma RanNothing(w: World)
    ensures Ran(w, w, [])
  {
  }

  lemma RanThen(u: World, v: World, w: World, a: seq<Prim>, b: seq<Prim>)
    requires Ran(u, v, a) && Ran(v, w, b)
    ensures Ran(u, w, a + b)
  {
    forall i | 0 <= i < |a + b|
      ensures w.trail[|u.trail| + i].prim == (a + b)[i]
    {
      if i < |a| {
        assert w.trail[|u.trail| + i] == v.trail[|u.trail| + i];
      } else {
        assert w.trail[|v.trail| + (i - |a|)].prim == b[i - |a|];
      }
    }
  }

  lemma {:induction false} ScriptRan(s: Schedule, w: World, cwd: Location, prims: seq<Prim>)
    requires prims != [] && RunScript(s, w, cwd, prims).code == 0
    ensures Ran(w, RunScript(s, w, cwd, prims).w, prims)
    decreases |prims|
  {
    hide Apply;
    var e := Apply(prims[0], cwd, w.fs, w.running, s.outcome(|w.trail|));
    var next := After(w, prims[0], e);
    assert Ran(w, next, [prims[0]]);
    if |prims| > 1 {
      ScriptRan(s, next, e.cwd, prims[1..]);
      RanThen(w, next, RunScript(s, next, e.cwd, prims[1..]).w, [prims[0]], prims[1..]);
      assert [prims[0]] + prims[1..] == prims;
    } else {
      assert prims == [prims[0]];
    }
  }

  lemma DoRan(s: Schedule, w: World, c: Cmd)
    requires var t := Do(s, w, c); t.r.Ok? && t.r.value.code == 0
    ensures Ran(w, Do(s, w, c).w, Script(c))
  {
    hide Accepts, RunScript, Script;
    ScriptRan(s, w, [], Script(c));
  }

  lemma ExecRan(s: Schedule, w: World, c: Cmd)
    requires ExecOk(s, w, c).r.Ok?
    ensures Ran(w, ExecOk(s, w, c).w, Script(c))
  {
    hide Do, Script;
    DoRan(s, w, c);
  }

  /** The simple commands of a command list, one after the other. */
  function Steps(cs: seq<Cmd>): seq<Prim> {
    if cs == [] then [] else Script(cs[0]) + Steps(cs[1..])
  }

  lemma {:induction false} RunAllRan(s: Schedule, w: World, cs: seq<Cmd>)
    requires RunAll(s, w, cs).r.Ok?
    ensures Ran(w, RunAll(s, w, cs).w, Steps(cs))
    decreases |cs|
  {
    hide ExecOk, Script;
    if cs != [] {
      ExecRan(s, w, cs[0]);
      var v := ExecOk(s, w, cs[0]).w;
      RunAllRan(s, v, cs[1..]);
      RanThen(w, v, RunAll(s, v, cs[1..]).w, Script(cs[0]), Steps(cs[1..]));
    }
  }

  lemma StepsNext(c: Cmd, rest: seq<Cmd>)
    ensures Steps([c] + rest) == Script(c) + Steps(rest)
  {
    hide Script;
    assert ([c] + rest)[1..] == rest;
  }

  // ---------------------------------------------------------------------------
  // The pieces
  // ---------------------------------------------------------------------------

  /** Writing a file: decode into the temporary file, move it, set its mode. */
  function Writing(path: string, content: Bytes): seq<Prim> {
    [Decode(Base64.Encode(content), path + ".rustmote-tmp"), Move(path + ".rustmote-tmp", path), Chmod(path)]
  }

  function Reading(install: string): seq<Prim> {
    [TestFile(StatePath(install)), Cat(StatePath(install))]
  }

  lemma LoadRan(env: Env, w: World, install: string)
    requires LoadState(env, w, install).r.Ok?
    ensures Ran(w, LoadState(env, w, install).w, Reading(install))
  {
    hide Do, StatePath;
    var p := StatePath(install);
    DoRan(env.remote, w, TestFileExists(p));
    var t := Do(env.remote, w, TestFileExists(p));
    DoRan(env.remote, t.w, CatFile(p));
    RanThen(w, t.w, Do(env.remote, t.w, CatFile(p)).w, [TestFile(p)], [Cat(p)]);
    assert [TestFile(p)] + [Cat(p)] == Reading(install);
  }

  /** Nothing but probes of the two relay ports, and at least one. */
  predicate IsProbing(prims: seq<Prim>) {
    prims != [] && forall i :: 0 <= i < |prims| ==> prims[i] == Probe(21116) || prims[i] == Probe(21117)
  }

  lemma ProbeRan(s: Schedule, w: World, port: Port)
    ensures Ran(w, Do(s, w, TcpProbe(port)).w, [Probe(port)])
  {
  }

  lemma RoundRan(env: Env, w: World) returns (prims: seq<Prim>)
    ensures Ran(w, ProbeRound(env, w, [HBBS_PORT, HBBR_PORT]).w, prims) && IsProbing(prims)
  {
    hide Do;
    var ports := [HBBS_PORT, HBBR_PORT];
    assert ports[1..] == [HBBR_PORT] && [HBBR_PORT][1..] == [];
    var t := Do(env.remote, w, TcpProbe(HBBS_PORT));
    ProbeRan(env.remote, w, HBBS_PORT);
    prims := [Probe(21116)];
    if t.r.Ok? && t.r.value.code == 0 {
      var u := Do(env.remote, t.w, TcpProbe(HBBR_PORT));
      assert ProbeRound(env, w, ports) == ProbeRound(env, t.w, [HBBR_PORT]);
      assert ProbeRound(env, u.w, []) == Run(u.w, Ok(true));
      assert ProbeRound(env, t.w, [HBBR_PORT]).w == u.w;
      ProbeRan(env.remote, t.w, HBBR_PORT);
      RanThen(w, t.w, u.w, prims, [Probe(21117)]);
      prims := prims + [Probe(21117)];
    }
  }

  lemma {:induction false} LoopRan(env: Env, w: World, deadline: int) returns (prims: seq<Prim>)
    ensures Ran(w, HealthLoop(env, w, deadline).w, prims) && IsProbing(prims)
    decreases deadline - w.clock
  {
    hide ProbeRound;
    var t := ProbeRound(env, w, [HBBS_PORT, HBBR_PORT]);
    prims := RoundRan(env, w);
    if t.r == Ok(false) && t.w.clock < deadline {
      var next := Sleep(env, t.w);
      var more := LoopRan(env, next, deadline);
      assert Ran(w, next, prims);
      RanThen(w, next, HealthLoop(env, next, deadline).w, prims, more);
      prims := prims + more;
    }
  }

  lemma HealthRan(env: Env, w: World) returns (prims: seq<Prim>)
    ensures Ran(w, HealthCheck(env, w).w, prims) && IsProbing(prims)
  {
    hide HealthLoop;
    prims := LoopRan(env, w, w.clock + env.timeout);
  }

  // ---------------------------------------------------------------------------
  // A fresh install
  // ---------------------------------------------------------------------------

  /** The directories, the three files and the start, in this order. */
  function Installing(install: string, compose: Bytes, envText: Bytes, state: Bytes): seq<Prim> {
    [Mkdir(install), Mkdir(DataPath(install)), Mkdir(BackupsPath(install))]
    + Writing(ComposePath(install), compose) + Writing(EnvPath(install), envText) + Writing(StatePath(install), state)
    + [ChangeDir(install), Up]
  }

  lemma InstallSteps(install: string, compose: Bytes, envText: Bytes, state: Bytes)
    ensures Steps(InstallCommands(install, compose, envText, state)) == Installing(install, compose, envText, state)
  {
    hide ComposePath, EnvPath, StatePath, DataPath, BackupsPath, Steps;
    var c0, c1, c2 := MkdirP(install), MkdirP(DataPath(install)), MkdirP(BackupsPath(install));
    var c3, c4 := WriteFile(ComposePath(install), compose), WriteFile(EnvPath(install), envText);
    var c5, c6 := WriteFile(StatePath(install), state), ComposeUp(install);
    assert InstallCommands(install, compose, envText, state) ==
           [c0] + ([c1] + ([c2] + ([c3] + ([c4] + ([c5] + ([c6] + []))))));
    hide InstallCommands;
    StepsNext(c0, [c1] + ([c2] + ([c3] + ([c4] + ([c5] + ([c6] + []))))));
    StepsNext(c1, [c2] + ([c3] + ([c4] + ([c5] + ([c6] + [])))));
    StepsNext(c2, [c3] + ([c4] + ([c5] + ([c6] + []))));
    StepsNext(c3, [c4] + ([c5] + ([c6] + [])));
    StepsNext(c4, [c5] + ([c6] + []));
    StepsNext(c5, [c6] + []);
    StepsNext(c6, []);
    NoSteps();
    var mkdirs := [Mkdir(install), Mkdir(DataPath(install)), Mkdir(BackupsPath(install))];
    assert mkdirs == Script(c0) + Script(c1) + Script(c2);
    Chained(Script(c0), Script(c1), Script(c2), Script(c3), Script(c4), Script(c5), Script(c6));
  }

  lemma NoSteps()
    ensures Steps([]) == []
  {
  }

  lemma Chained(a: seq<Prim>, b: seq<Prim>, c: seq<Prim>, d: seq<Prim>, e: seq<Prim>, f: seq<Prim>, g: seq<Prim>)
    ensures a + (b + (c + (d + (e + (f + (g + [])))))) == (a + b + c) + d + e + f + g
  {
  }

  /** A fresh install that succeeds ran the installing steps, probes, and the reading of the key. */
  lemma FreshTranscript(env: Env, w: World, install: string, opts: BootstrapOptions, os: OsKind) returns (probes: seq<Prim>)
    requires Fresh(env, w, install, opts, os).r.Ok?
    ensures Prepared(env, w, opts).Some? && IsProbing(probes)
    ensures var (state, compose) := Prepared(env, w, opts).value;
            Ran(w, Fresh(env, w, install, opts, os).w,
                Installing(install, compose, opts.envContents, env.toml.encode(state)) + probes + [Cat(KeyPath(install))])
  {
    hide RunAll, HealthCheck, RenderPins, ResolvePins, InstallCommands, Installing, IsProbing, Ran, ExecOk, KeyPath, IsRemotePath;
    var (state, compose) := Prepared(env, w, opts).value;
    var steps := Installing(install, compose, opts.envContents, env.toml.encode(state));
    var t := RunAll(env.remote, w, InstallCommands(install, compose, opts.envContents, env.toml.encode(state)));
    RunAllRan(env.remote, w, InstallCommands(install, compose, opts.envContents, env.toml.encode(state)));
    InstallSteps(install, compose, opts.envContents, env.toml.encode(state));
    probes := HealthRan(env, t.w);
    var h := HealthCheck(env, t.w);
    RanThen(w, t.w, h.w, steps, probes);
    InstallAccepted(env.remote, w, install, compose, opts.envContents, env.toml.encode(state));
    LiveAccepted(install);
    CatRan(env.remote, h.w, KeyPath(install));
    RanThen(w, h.w, ExecOk(env.remote, h.w, CatFile(KeyPath(install))).w, steps + probes, [Cat(KeyPath(install))]);
  }

  lemma InstallAccepted(s: Schedule, w: World, install: string, compose: Bytes, envText: Bytes, state: Bytes)
    requires RunAll(s, w, InstallCommands(install, compose, envText, state)).r.Ok?
    ensures IsRemotePath(install)
  {
    hide RunScript, IsRemotePath, ComposePath, EnvPath, StatePath, DataPath, BackupsPath;
    var cs := InstallCommands(install, compose, envText, state);
    RunAllStep(s, w, cs);
    assert cs[0] == MkdirP(install);
  }

  lemma CatRan(s: Schedule, w: World, p: string)
    requires IsRemotePath(p)
    ensures Ran(w, ExecOk(s, w, CatFile(p)).w, [Cat(p)])
  {
    hide IsRemotePath, Locate;
    assert Script(CatFile(p)) == [Cat(p)];
  }

  // ---------------------------------------------------------------------------
  // An update
  // ---------------------------------------------------------------------------

  /** The directory and the two copies of a backup. */
  function Saving(install: string, dir: string): seq<Prim> {
    [Mkdir(dir), Copy(ComposePath(install), PosixJoin(dir, "docker-compose.yml")),
     Copy(StatePath(install), PosixJoin(dir, ".rustmote-state.toml"))]
  }

  lemma SavingSteps(install: string, dir: string)
    ensures Steps(BackupCommands(install, dir)) == Saving(install, dir)
  {
    hide ComposePath, StatePath, PosixJoin, Steps;
    var c0, c1 := MkdirP(dir), CopyFile(ComposePath(install), PosixJoin(dir, COMPOSE_FILE));
    var c2 := CopyFile(StatePath(install), PosixJoin(dir, STATE_FILE));
    assert BackupCommands(install, dir) == [c0] + ([c1] + ([c2] + []));
    hide BackupCommands;
    StepsNext(c0, [c1] + ([c2] + []));
    StepsNext(c1, [c2] + []);
    StepsNext(c2, []);
    NoSteps();
  }

  /** The snapshot: `docker compose config`, and its output written if it succeeded. */
  predicate IsSnapshot(install: string, dir: string, prims: seq<Prim>, content: Bytes) {
    || prims == [ChangeDir(install)]
    || prims == [ChangeDir(install), Config]
    || prims == [ChangeDir(install), Config] + Writing(PosixJoin(dir, "compose-config.yml"), content)
  }

  lemma ConfigRan(s: Schedule, w: World, install: string)
    requires Do(s, w, ComposeConfig(install)).r.Ok?
    ensures var t := Do(s, w, ComposeConfig(install));
            || Ran(w, t.w, [ChangeDir(install), Config])
            || (t.r.value.code != 0 && Ran(w, t.w, [ChangeDir(install)]))
  {
    hide IsRemotePath, Apply;
    var prims := Script(ComposeConfig(install));
    assert prims == [ChangeDir(install), Config] && prims[1..] == [Config];
    var e := Apply(ChangeDir(install), [], w.fs, w.running, s.outcome(|w.trail|));
    var v := After(w, ChangeDir(install), e);
    if e.code == 0 {
      assert RunScript(s, w, [], prims) == RunScript(s, v, e.cwd, [Config]);
    }
  }

  lemma SnapshotRan(env: Env, w: World, install: string, dir: string) returns (prims: seq<Prim>, content: Bytes)
    requires SaveConfig(env, w, install, dir).r.Ok?
    ensures Ran(w, SaveConfig(env, w, install, dir).w, prims) && IsSnapshot(install, dir, prims, content)
  {
    hide Do, RunAll, PosixJoin, Ran;
    var t := Do(env.remote, w, ComposeConfig(install));
    ConfigRan(env.remote, w, install);
    content := t.r.value.stdout;
    if t.r.value.code == 0 {
      var path := PosixJoin(dir, CONFIG_FILE);
      var cs := [WriteFile(path, content)];
      RunAllRan(env.remote, t.w, cs);
      assert cs[1..] == [] && Steps(cs) == Writing(path, content) + [];
      assert Writing(path, content) + [] == Writing(path, content);
      RanThen(w, t.w, RunAll(env.remote, t.w, cs).w, [ChangeDir(install), Config], Writing(path, content));
      prims := [ChangeDir(install), Config] + Writing(path, content);
    } else if Ran(w, t.w, [ChangeDir(install), Config]) {
      prims := [ChangeDir(install), Config];
    } else {
      prims := [ChangeDir(install)];
    }
  }

  lemma BackupRan(env: Env, w: World, install: string, dir: string) returns (snapshot: seq<Prim>, content: Bytes)
    requires TakeBackup(env, w, install, dir).r.Ok?
    ensures Ran(w, TakeBackup(env, w, install, dir).w, Saving(install, dir) + snapshot)
    ensures IsSnapshot(install, dir, snapshot, content)
  {
    hide RunAll, SaveConfig, Saving, BackupCommands, Ran, IsSnapshot;
    RunAllRan(env.remote, w, BackupCommands(install, dir));
    SavingSteps(install, dir);
    var t := RunAll(env.remote, w, BackupCommands(install, dir));
    snapshot, content := SnapshotRan(env, t.w, install, dir);
    RanThen(w, t.w, SaveConfig(env, t.w, install, dir).w, Saving(install, dir), snapshot);
  }

  /** Both files, the pull and the start. */
  function Deploying(install: string, compose: Bytes, state: Bytes): seq<Prim> {
    Writing(ComposePath(install), compose) + Writing(StatePath(install), state)
    + [ChangeDir(install), Pull, ChangeDir(install), Up]
  }

  lemma DeployingSteps(install: string, compose: Bytes, state: Bytes)
    ensures Steps(DeployCommands(install, compose, state)) == Deploying(install, compose, state)
  {
    hide ComposePath, StatePath, Steps;
    var c0, c1 := WriteFile(ComposePath(install), compose), WriteFile(StatePath(install), state);
    var c2, c3 := ComposePull(install), ComposeUp(install);
    assert DeployCommands(install, compose, state) == [c0] + ([c1] + ([c2] + ([c3] + [])));
    hide DeployCommands;
    StepsNext(c0, [c1] + ([c2] + ([c3] + [])));
    StepsNext(c1, [c2] + ([c3] + []));
    StepsNext(c2, [c3] + []);
    StepsNext(c3, []);
    NoSteps();
    assert Script(c2) + Script(c3) == [ChangeDir(install), Pull, ChangeDir(install), Up];
    FourChained(Script(c0), Script(c1), Script(c2), Script(c3));
  }

  lemma FourChained(a: seq<Prim>, b: seq<Prim>, c: seq<Prim>, d: seq<Prim>)
    ensures a + (b + (c + (d + []))) == a + b + (c + d)
  {
  }

  /** What a launched update ran since its backup. */
  lemma LaunchRan(env: Env, w: World, install: string, opts: UpdateOptions, images: seq<ImageUpdate>, now: DateTime)
    requires Launched(env, w, install, opts, images, now).Some?
    ensures var (v, newState, compose) := Launched(env, w, install, opts, images, now).value;
            Ran(w, v, Reading(install) + Deploying(install, compose, env.toml.encode(newState)))
  {
    hide LoadState, RunAll, RenderPins, DeployCommands, Deploying, Reading, Ran;
    LoadRan(env, w, install);
    var l := LoadState(env, w, install);
    var (v, newState, compose) := Launched(env, w, install, opts, images, now).value;
    RunAllRan(env.remote, l.w, DeployCommands(install, compose, env.toml.encode(newState)));
    DeployingSteps(install, compose, env.toml.encode(newState));
    RanThen(w, l.w, v, Reading(install), Deploying(install, compose, env.toml.encode(newState)));
  }

  function Removing(paths: seq<string>): seq<Prim> {
    if paths == [] then [] else [Remove(paths[0])] + Removing(paths[1..])
  }

  lemma {:induction false} RemovingAdds(a: seq<string>, b: seq<string>)
    ensures Removing(a + b) == Removing(a) + Removing(b)
  {
    if a == [] {
      assert a + b == b;
    } else {
      RemovingAdds(a[1..], b);
      assert (a + b)[1..] == a[1..] + b;
    }
  }

  lemma {:induction false} DeletionsRan(env: Env, w: World, doomed: seq<Entry>, deleted: seq<string>)
    requires DeleteAll(env, w, doomed, deleted).r.Ok?
    ensures Ran(w, DeleteAll(env, w, doomed, deleted).w, Removing(EntryPaths(doomed)))
    decreases |doomed|
  {
    hide ExecOk;
    if doomed != [] {
      var c := RemoveTree(doomed[0].path);
      ExecRan(env.remote, w, c);
      var v := ExecOk(env.remote, w, c).w;
      DeletionsRan(env, v, doomed[1..], deleted + [doomed[0].path]);
      RanThen(w, v, DeleteAll(env, v, doomed[1..], deleted + [doomed[0].path]).w, [Remove(doomed[0].path)],
              Removing(EntryPaths(doomed[1..])));
      assert EntryPaths(doomed)[1..] == EntryPaths(doomed[1..]);
    }
  }

  lemma FindRan(s: Schedule, w: World, p: string)
    requires Do(s, w, FindBackups(p)).r.Ok?
    ensures Ran(w, Do(s, w, FindBackups(p)).w, [Find(p)])
  {
    hide IsRemotePath, Apply;
    assert Script(FindBackups(p)) == [Find(p)];
  }

  /** The collector lists and then deletes just what it reports. */
  lemma CollectionRan(env: Env, w: World, install: string, now: DateTime)
    requires GcBackups(env, w, install, now).r.Ok?
    ensures var g := GcBackups(env, w, install, now); Ran(w, g.w, [Find(BackupsPath(install))] + Removing(g.r.value))
  {
    hide Do, DeleteAll, GcDoomed, BackupsPath, Ran, IsPruned;
    var dir := BackupsPath(install);
    FindRan(env.remote, w, dir);
    var t, g := Do(env.remote, w, FindBackups(dir)), GcBackups(env, w, install, now);
    GcExact(env, w, install, now);
    if t.r.value.code == 0 {
      ListingThenDeletion(env, w, install, now);
      DeletionsRan(env, t.w, GcDoomed(env, w, install, now), []);
      RanThen(w, t.w, g.w, [Find(dir)], Removing(g.r.value));
    } else {
      NoListingNoDeletion(env, w, install, now);
      assert [Find(dir)] + Removing([]) == [Find(dir)];
    }
  }

  /** What a replacing update that gets to its health check ran until then. */
  function Replacing(install: string, secured: seq<Prim>, compose: Bytes, state: Bytes): seq<Prim> {
    secured + (Reading(install) + Deploying(install, compose, state))
  }

  /** The backup, if one is wanted: both copies and the snapshot. */
  predicate IsSecuring(install: string, dir: Option<string>, prims: seq<Prim>, content: Bytes) {
    if dir.None? then prims == []
    else
      var n := |Saving(install, dir.value)|;
      |prims| >= n && prims[..n] == Saving(install, dir.value) && IsSnapshot(install, dir.value, prims[n..], content)
  }

  lemma SecuredRan(env: Env, w: World, install: string, opts: UpdateOptions) returns (prims: seq<Prim>, content: Bytes)
    requires Secured(env, w, install, opts).r.Ok?
    ensures Ran(w, Secured(env, w, install, opts).w, prims)
    ensures IsSecuring(install, BackupOf(env, w, install, opts), prims, content)
  {
    hide TakeBackup, Saving, IsSnapshot, Ran, BackupDir;
    if opts.skipBackup {
      RanNothing(w);
      prims, content := [], "";
    } else {
      var dir := BackupDir(install, env.wall(|w.trail|));
      var snapshot, output := BackupRan(env, w, install, dir);
      prims, content := Saving(install, dir) + snapshot, output;
      assert prims[..|Saving(install, dir)|] == Saving(install, dir) && prims[|Saving(install, dir)|..] == snapshot;
    }
  }

  /** The directory of the backup this update takes, if it takes one. */
  function BackupOf(env: Env, w: World, install: string, opts: UpdateOptions): Option<string> {
    if opts.skipBackup then None else Some(BackupDir(install, env.wall(|w.trail|)))
  }

  lemma CheckRan(env: Env, w: World, install: string)
    requires CheckUpdates(env, w, install).r.Ok?
    ensures Ran(w, CheckUpdates(env, w, install).w, Reading(install))
    ensures |CheckUpdates(env, w, install).w.trail| == |w.trail| + 2
  {
    hide LoadState, CheckPins, Ran;
    LoadRan(env, w, install);
    LoadTakesTwo(env, w, install);
  }

  /** What the new version of a replacing update is: its compose text and its state file. */
  predicate IsVersion(env: Env, opts: UpdateOptions, newState: RelayState, compose: Bytes) {
    RenderPins(opts.template, newState.images) == Ok(compose)
  }

  lemma LaunchedVersion(env: Env, w: World, install: string, opts: UpdateOptions, images: seq<ImageUpdate>, now: DateTime)
    requires Launched(env, w, install, opts, images, now).Some?
    ensures var (_, newState, compose) := Launched(env, w, install, opts, images, now).value;
            IsVersion(env, opts, newState, compose)
  {
    hide LoadState, RunAll, RenderPins, DeployCommands;
  }

  /** A changing update that succeeds ran: the check; the backup, if wanted; the state again; the two writes,
      the pull and the start; probes; the listing of the backups; and the reported deletions. */
  lemma UpdateTranscript(env: Env, w: World, install: string, opts: UpdateOptions)
    returns (secured: seq<Prim>, content: Bytes, compose: Bytes, probes: seq<Prim>)
    requires Update(env, w, install, opts).r.Ok? && Update(env, w, install, opts).r.value.changed
    ensures var t := Update(env, w, install, opts);
            var report := t.r.value;
            && IsVersion(env, opts, report.newState, compose) && IsProbing(probes)
            && IsSecuring(install, report.backupDir, secured, content)
            && Ran(w, t.w, Reading(install) + Replacing(install, secured, compose, env.toml.encode(report.newState))
                           + probes + ([Find(BackupsPath(install))] + Removing(report.gcDeleted)))
  {
    hide CheckUpdates, LoadState, Replace, Reading, Replacing, Ran, IsSecuring, IsProbing, IsVersion, RenderPins, BackupsPath;
    var c, t := CheckUpdates(env, w, install), Update(env, w, install, opts);
    CheckRan(env, w, install);
    var more: seq<Prim>;
    secured, content, compose, probes, more := ReplaceRan(env, c.w, install, opts, c.r.value);
    var version := Replacing(install, secured, compose, env.toml.encode(t.r.value.newState));
    RanThen(w, c.w, t.w, Reading(install), version + probes + more);
    SumOfFour(Reading(install), version, probes, more);
  }

  lemma SumOfFour(a: seq<Prim>, b: seq<Prim>, c: seq<Prim>, d: seq<Prim>)
    ensures a + (b + c + d) == a + b + c + d
  {
  }

  lemma ReplaceRan(env: Env, w: World, install: string, opts: UpdateOptions, images: seq<ImageUpdate>)
    returns (secured: seq<Prim>, content: Bytes, compose: Bytes, probes: seq<Prim>, more: seq<Prim>)
    requires Replace(env, w, install, opts, images).r.Ok?
    ensures var t := Replace(env, w, install, opts, images);
            && IsVersion(env, opts, t.r.value.newState, compose) && IsProbing(probes)
            && IsSecuring(install, t.r.value.backupDir, secured, content)
            && more == [Find(BackupsPath(install))] + Removing(t.r.value.gcDeleted)
            && Ran(w, t.w, Replacing(install, secured, compose, env.toml.encode(t.r.value.newState)) + probes + more)
  {
    hide TakeBackup, Deploy, Settle, Launched, Reading, Deploying, Ran, IsSecuring, IsProbing, IsVersion, RenderPins, BackupsPath,
         BackupDir;
    var now, b := env.wall(|w.trail|), Secured(env, w, install, opts);
    var dir := BackupOf(env, w, install, opts);
    secured, content := SecuredRan(env, w, install, opts);
    DeploySettles(env, b.w, install, opts, images, now, dir);
    var (v, newState, text) := Launched(env, b.w, install, opts, images, now).value;
    LaunchedVersion(env, b.w, install, opts, images, now);
    LaunchRan(env, b.w, install, opts, images, now);
    compose := text;
    var deployed := Reading(install) + Deploying(install, compose, env.toml.encode(newState));
    RanThen(w, b.w, v, secured, deployed);
    probes, more := SettleRan(env, v, install, now, dir, newState);
    var t := Replace(env, w, install, opts, images);
    RanThen(w, v, t.w, secured + deployed, probes + more);
    assert secured + deployed + (probes + more) == secured + deployed + probes + more;
  }

  lemma SettleRan(env: Env, w: World, install: string, now: DateTime, dir: Option<string>, newState: RelayState)
    returns (probes: seq<Prim>, more: seq<Prim>)
    requires Settle(env, w, install, now, dir, newState).r.Ok?
    ensures var t := Settle(env, w, install, now, dir, newState);
            && IsProbing(probes) && more == [Find(BackupsPath(install))] + Removing(t.r.value.gcDeleted)
            && t.r.value.newState == newState && t.r.value.backupDir == dir
            && Ran(w, t.w, probes + more)
  {
    hide HealthCheck, GcBackups, Rollback, Ran, IsProbing, BackupsPath;
    probes := HealthRan(env, w);
    var h := HealthCheck(env, w);
    CollectionRan(env, h.w, install, now);
    var g := GcBackups(env, h.w, install, now);
    more := [Find(BackupsPath(install))] + Removing(g.r.value);
    RanThen(w, h.w, g.w, probes, more);
  }

  // ---------------------------------------------------------------------------
  // A rollback
  // ---------------------------------------------------------------------------

  /** Both saved files copied back, the compose text first, and the start. */
  function Restoring(install: string, dir: string): seq<Prim> {
    [Copy(PosixJoin(dir, "docker-compose.yml"), ComposePath(install)),
     Copy(PosixJoin(dir, ".rustmote-state.toml"), StatePath(install)), ChangeDir(install), Up]
  }

  lemma RestoringSteps(install: string, dir: string)
    ensures Steps(RestoreCommands(install, dir)) == Restoring(install, dir)
  {
    hide ComposePath, StatePath, PosixJoin, Steps;
    var c0 := CopyFile(PosixJoin(dir, COMPOSE_FILE), ComposePath(install));
    var c1, c2 := CopyFile(PosixJoin(dir, STATE_FILE), StatePath(install)), ComposeUp(install);
    assert RestoreCommands(install, dir) == [c0] + ([c1] + ([c2] + []));
    hide RestoreCommands;
    StepsNext(c0, [c1] + ([c2] + []));
    StepsNext(c1, [c2] + []);
    StepsNext(c2, []);
    NoSteps();
  }

  lemma RollbackRan(env: Env, w: World, install: string, dir: string) returns (probes: seq<Prim>)
    requires Rollback(env, w, install, dir).r.Ok? || Rollback(env, w, install, dir).r == Err(RelayHealthCheckFailed)
    ensures IsProbing(probes) && Ran(w, Rollback(env, w, install, dir).w, Restoring(install, dir) + probes)
  {
    hide RunAll, HealthCheck, RestoreCommands, Restoring, Ran, IsProbing;
    var t := RunAll(env.remote, w, RestoreCommands(install, dir));
    RunAllErrors(env.remote, w, RestoreCommands(install, dir));
    RunAllRan(env.remote, w, RestoreCommands(install, dir));
    RestoringSteps(install, dir);
    probes := HealthRan(env, t.w);
    RanThen(w, t.w, HealthCheck(env, t.w).w, Restoring(install, dir), probes);
  }

  lemma SettleRanBack(env: Env, w: World, install: string, now: DateTime, dir: string, newState: RelayState)
    returns (probes: seq<Prim>, again: seq<Prim>)
    requires Settle(env, w, install, now, Some(dir), newState).r == Err(RelayHealthCheckFailed)
    ensures IsProbing(probes) && IsProbing(again)
    ensures Ran(w, Settle(env, w, install, now, Some(dir), newState).w, probes + (Restoring(install, dir) + again))
  {
    hide HealthCheck, GcBackups, Rollback, Ran, IsProbing, Restoring;
    probes := HealthRan(env, w);
    var h := HealthCheck(env, w);
    GcErrors(env, h.w, install, now);
    again := RollbackRan(env, h.w, install, dir);
    RanThen(w, h.w, Rollback(env, h.w, install, dir).w, probes, Restoring(install, dir) + again);
  }

  /** An update with a backup that reports a failed health check ran: the check, the backup, the state again,
      the two writes, the pull and the start, probes, both copies back and the start, and probes again. */
  lemma RollbackTranscript(env: Env, w: World, install: string, opts: UpdateOptions)
    returns (secured: seq<Prim>, content: Bytes, target: Target, probes: seq<Prim>, again: seq<Prim>)
    requires !opts.skipBackup && Update(env, w, install, opts).r == Err(RelayHealthCheckFailed)
    ensures var t, dir := Update(env, w, install, opts), BackupDir(install, env.wall(|w.trail| + 2));
            && UpdateTarget(env, w, install, opts) == Some(target) && IsProbing(probes) && IsProbing(again)
            && IsSecuring(install, Some(dir), secured, content)
            && Ran(w, t.w, Reading(install) + Replacing(install, secured, target.compose, target.state)
                           + probes + (Restoring(install, dir) + again))
  {
    hide CheckUpdates, LoadState, Replace, Reading, Replacing, Ran, IsSecuring, IsProbing, Restoring, Secured,
      DeployTarget, BackupDir;
    CheckUpdatesErrors(env, w, install);
    var c, t := CheckUpdates(env, w, install), Update(env, w, install, opts);
    LoadStateErrors(env, c.w, install);
    CheckRan(env, w, install);
    var dir := BackupDir(install, env.wall(|c.w.trail|));
    secured, content, target, probes, again := ReplaceRanBack(env, c.w, install, opts, c.r.value);
    var version := Replacing(install, secured, target.compose, target.state);
    RanThen(w, c.w, t.w, Reading(install), version + probes + (Restoring(install, dir) + again));
    SumOfFour(Reading(install), version, probes, Restoring(install, dir) + again);
  }

  lemma ReplaceRanBack(env: Env, w: World, install: string, opts: UpdateOptions, images: seq<ImageUpdate>)
    returns (secured: seq<Prim>, content: Bytes, target: Target, probes: seq<Prim>, again: seq<Prim>)
    requires !opts.skipBackup && Replace(env, w, install, opts, images).r == Err(RelayHealthCheckFailed)
    ensures var t, dir := Replace(env, w, install, opts, images), BackupDir(install, env.wall(|w.trail|));
            && ReplaceTarget(env, w, install, opts, images) == Some(target) && IsProbing(probes) && IsProbing(again)
            && IsSecuring(install, Some(dir), secured, content)
            && Ran(w, t.w, Replacing(install, secured, target.compose, target.state) + probes + (Restoring(install, dir) + again))
  {
    hide TakeBackup, Deploy, Settle, Launched, Reading, Deploying, Ran, IsSecuring, IsProbing, RenderPins, BackupDir, Restoring,
         LoadState;
    var now, b := env.wall(|w.trail|), Secured(env, w, install, opts);
    var dir := BackupDir(install, now);
    TakeBackupErrors(env, w, install, dir);
    secured, content := SecuredRan(env, w, install, opts);
    DeploySettles(env, b.w, install, opts, images, now, Some(dir));
    var (v, newState, text) := Launched(env, b.w, install, opts, images, now).value;
    LaunchedIsTarget(env, b.w, install, opts, images, now);
    LaunchRan(env, b.w, install, opts, images, now);
    target := Target(text, env.toml.encode(newState));
    var deployed := Reading(install) + Deploying(install, text, env.toml.encode(newState));
    RanThen(w, b.w, v, secured, deployed);
    probes, again := SettleRanBack(env, v, install, now, dir, newState);
    var t := Replace(env, w, install, opts, images);
    RanThen(w, v, t.w, secured + deployed, probes + (Restoring(install, dir) + again));
    assert secured + deployed + (probes + (Restoring(install, dir) + again)) ==
           secured + deployed + probes + (Restoring(install, dir) + again);
  }

  lemma LaunchedIsTarget(env: Env, w: World, install: string, opts: UpdateOptions, images: seq<ImageUpdate>, now: DateTime)
    requires Launched(env, w, install, opts, images, now).Some?
    ensures var (_, newState, compose) := Launched(env, w, install, opts, images, now).value;
            DeployTarget(env, w, install, opts, images, now) == Some(Target(compose, env.toml.encode(newState)))
  {
    hide LoadState, RunAll, RenderPins, DeployCommands;
  }
}
