// Failing steps of a bootstrap: for every calm host a schedule that differs from it in a single step and
// takes the bootstrap down one of the paths the other modules describe.
module BootstrapScenarios {
  import opened Wrappers
  import opened Text
  import opened Paths
  import opened Validators
  import opened Commands
  import opened Shell
  import opened ShellFacts
  import opened Render
  import opened Protocol
  import opened RunFacts
  import opened UpdateFacts
  import opened UpdateTheorems
  import opened Lineage
  import opened LiveFiles
  import opened PathSafety
  import opened Convergence
  import opened Progress
  import opened Locality
  import opened Scenarios

  // ---------------------------------------------------------------------------
  // A bootstrap that stops halfway
  // ---------------------------------------------------------------------------

  /** Where the failing step is: the first directory, the second one, or the start. */
  datatype Stop = AtInstallDir | AtDataDir | AtStart

  /** The install commands before the failing one, that one, and the rest. */
  function Before(install: string, compose: Bytes, envContents: Bytes, state: Bytes, stop: Stop): seq<Cmd> {
    match stop
    case AtInstallDir => []
    case AtDataDir => [MkdirP(install)]
    case AtStart => [MkdirP(install), MkdirP(DataPath(install)), MkdirP(BackupsPath(install)),
                     WriteFile(ComposePath(install), compose), WriteFile(EnvPath(install), envContents),
                     WriteFile(StatePath(install), state)]
  }

  function Failing(install: string, stop: Stop): Cmd {
    match stop
    case AtInstallDir => MkdirP(install)
    case AtDataDir => MkdirP(DataPath(install))
    case AtStart => ComposeUp(install)
  }

  /** The step of the failing command that fails. */
  function Offset(stop: Stop): nat {
    if stop.AtStart? then 1 else 0
  }

  function Rest(install: string, compose: Bytes, envContents: Bytes, state: Bytes, stop: Stop): seq<Cmd> {
    match stop
    case AtInstallDir => InstallCommands(install, compose, envContents, state)[1..]
    case AtDataDir => InstallCommands(install, compose, envContents, state)[2..]
    case AtStart => []
  }

  lemma InstallSplits(install: string, compose: Bytes, envContents: Bytes, state: Bytes, stop: Stop)
    ensures InstallCommands(install, compose, envContents, state) ==
            Before(install, compose, envContents, state, stop) +
            ([Failing(install, stop)] + Rest(install, compose, envContents, state, stop))
  {
    hide ComposePath, EnvPath, StatePath, DataPath, BackupsPath;
  }

  /** For every calm host without the install directory, and each of the three places, there is a schedule
      different in one step only under which a fresh bootstrap stops there. It leaves no directory; or the
      directory without a state file, foreign from then on; or the complete state file. */
  lemma BootstrapCanStop(env: Env, w: World, install: string, opts: BootstrapOptions, stop: Stop) returns (s: Schedule)
    requires IsRemotePath(install) && Locate(install) !in w.fs.dirs && At(w.fs, PlaceOf(install, State)).None?
    requires IsCalm(env.remote, |Survey(env, w, install, opts.osHint).w.trail|)
    requires var v := Survey(env, w, install, opts.osHint); v.r.Ok? && Prepared(env, v.w, opts).Some?
    ensures var t, state := Bootstrap(env.(remote := s), w, install, opts),
                            Prepared(env, Survey(env, w, install, opts.osHint).w, opts).value.0;
            && t.r.Err?
            && (Locate(install) in t.w.fs.dirs <==> !stop.AtInstallDir?)
            && At(t.w.fs, PlaceOf(install, State)) == if stop.AtStart? then Some(env.toml.encode(state)) else None
  {
    hide Survey, Prepared, PlaceOf, Locate, IsRemotePath, RunAll, ExecOk, InstallCommands, Before, Failing, Rest, Disturb,
      Agree, Fresh;
    var v := Survey(env, w, install, opts.osHint);
    SurveyIdle(env, w, install, opts.osHint);
    IdleSameFs(w, v.w);
    SurveyFinds(env, w, install, opts.osHint);
    var (state, compose) := Prepared(env, v.w, opts).value;
    var text := env.toml.encode(state);
    var before := RunAll(env.remote, v.w, Before(install, compose, opts.envContents, text, stop));
    var k := |before.w.trail| + Offset(stop);
    s := Disturb(env.remote, k, 0, None);
    Disturbed(env.remote, |v.w.trail|, k, 0, None);
    SurveyLocal(env, s, k, w, install, opts.osHint);
    InstallStops(env, v.w, install, compose, opts.envContents, text, stop, s);
    SamePrepared(env, s, v.w, v.w, opts);
    FreshStops(env.(remote := s), v.w, install, opts, v.r.value.0);
  }

  lemma SamePrepared(env: Env, s: Schedule, w: World, v: World, opts: BootstrapOptions)
    requires |v.trail| == |w.trail|
    ensures Prepared(env.(remote := s), v, opts) == Prepared(env, w, opts)
  {
    hide RenderPins;
    SameResolved(env, s, |w.trail|, opts, env.wall(|w.trail|), 0);
  }

  lemma {:induction false} SameResolved(env: Env, s: Schedule, at: nat, opts: BootstrapOptions, now: DateTime, i: nat)
    requires i <= |opts.services|
    ensures ResolvePins(env.(remote := s), at, opts, now, i) == ResolvePins(env, at, opts, now, i)
    decreases |opts.services| - i
  {
    if i < |opts.services| {
      SameResolved(env, s, at, opts, now, i + 1);
    }
  }

  lemma FreshStops(env: Env, w: World, install: string, opts: BootstrapOptions, os: OsKind)
    requires Prepared(env, w, opts).Some?
    requires var (state, compose) := Prepared(env, w, opts).value;
             RunAll(env.remote, w, InstallCommands(install, compose, opts.envContents, env.toml.encode(state))).r.Err?
    ensures var (state, compose) := Prepared(env, w, opts).value;
            var t := RunAll(env.remote, w, InstallCommands(install, compose, opts.envContents, env.toml.encode(state)));
            Fresh(env, w, install, opts, os) == Run(t.w, Err(t.r.error))
  {
    hide RunAll, InstallCommands, RenderPins, ResolvePins, HealthCheck, WithKey;
  }

  lemma InstallStops(env: Env, w: World, install: string, compose: Bytes, envContents: Bytes, state: Bytes, stop: Stop,
                     s: Schedule)
    requires IsRemotePath(install) && Locate(install) !in w.fs.dirs && At(w.fs, PlaceOf(install, State)).None?
    requires IsCalm(env.remote, |w.trail|)
    requires var before := RunAll(env.remote, w, Before(install, compose, envContents, state, stop));
             s == Disturb(env.remote, |before.w.trail| + Offset(stop), 0, None)
    ensures var t := RunAll(s, w, InstallCommands(install, compose, envContents, state));
            && t.r.Err?
            && (Locate(install) in t.w.fs.dirs <==> !stop.AtInstallDir?)
            && At(t.w.fs, PlaceOf(install, State)) == if stop.AtStart? then Some(state) else None
  {
    hide PlaceOf, Locate, IsRemotePath, RunAll, ExecOk, InstallCommands, Disturb, Agree, ComposePath, EnvPath, StatePath,
         DataPath, BackupsPath, Before, Rest;
    var a, c, rest := Before(install, compose, envContents, state, stop), Failing(install, stop),
                      Rest(install, compose, envContents, state, stop);
    var before := RunAll(env.remote, w, a);
    var k := |before.w.trail| + Offset(stop);
    InstallSplits(install, compose, envContents, state, stop);
    CalmInstalls(env.remote, w, install, compose, envContents, state);
    PrefixOk(env.remote, w, a, [c] + rest);
    Disturbed(env.remote, |w.trail|, k, 0, None);
    RunAllLocal(env.remote, s, k, w, a);
    BeforeLeaves(env.remote, w, install, compose, envContents, state, stop);
    FailingFails(s, before.w, install, stop);
    StopsAt(s, w, a, c, rest);
  }

  lemma FailingFails(s: Schedule, w: World, install: string, stop: Stop)
    requires IsRemotePath(install) && !s.lost(|w.trail|) && (stop.AtStart? ==> s.outcome(|w.trail|).exit == 0)
    requires s.outcome(|w.trail| + Offset(stop)).exit == 1 && s.outcome(|w.trail| + Offset(stop)).torn == None
    ensures var t := ExecOk(s, w, Failing(install, stop));
            && t.r.Err? && At(t.w.fs, PlaceOf(install, State)) == At(w.fs, PlaceOf(install, State)) && t.w.fs.dirs == w.fs.dirs
  {
    hide PlaceOf, IsRemotePath, ExecOk, DataPath, MayChange;
    LiveAccepted(install);
    match stop
    case AtInstallDir => MkdirFails(s, w, install);
    case AtDataDir => MkdirFails(s, w, DataPath(install));
    case AtStart =>
      UpFails(s, w, install);
      UpChanges(install, State);
      DoQuiet(s, w, ComposeUp(install), PlaceOf(install, State));
      ExecIsDo(s, w, ComposeUp(install));
  }

  lemma BeforeLeaves(s: Schedule, w: World, install: string, compose: Bytes, envContents: Bytes, state: Bytes, stop: Stop)
    requires Locate(install) !in w.fs.dirs && At(w.fs, PlaceOf(install, State)).None?
    requires RunAll(s, w, Before(install, compose, envContents, state, stop)).r.Ok?
    ensures var v := RunAll(s, w, Before(install, compose, envContents, state, stop)).w;
            && (Locate(install) in v.fs.dirs <==> !stop.AtInstallDir?)
            && At(v.fs, PlaceOf(install, State)) == if stop.AtStart? then Some(state) else None
  {
    hide PlaceOf, Locate, ExecOk, RunAll, Succeeds, ComposePath, EnvPath, StatePath, DataPath, BackupsPath;
    var cs := Before(install, compose, envContents, state, stop);
    if stop.AtInstallDir? {
      RunAllNone(s, w);
    } else {
      RunAllStep(s, w, cs);
      MkdirSuccess(s, w, install);
      MkdirLeaves(s, w, MkdirP(install), PlaceOf(install, State));
      var v := ExecOk(s, w, MkdirP(install)).w;
      RunAllDir(s, v, cs[1..], Locate(install));
      if stop.AtDataDir? {
        assert cs[1..] == [];
        RunAllNone(s, v);
      } else {
        StateWritten(s, w, install, compose, envContents, state);
      }
    }
  }

  lemma StateWritten(s: Schedule, w: World, install: string, compose: Bytes, envContents: Bytes, state: Bytes)
    requires RunAll(s, w, Before(install, compose, envContents, state, AtStart)).r.Ok?
    ensures At(RunAll(s, w, Before(install, compose, envContents, state, AtStart)).w.fs, PlaceOf(install, State)) == Some(state)
  {
    hide PlaceOf, PathOf, ExecOk, RunAll, Succeeds, ComposePath, EnvPath, StatePath, DataPath, BackupsPath;
    HelpersNamePlaces(install, Instant(0, 1970, 1, 1, 0, 0, 0));
    var cs := Before(install, compose, envContents, state, AtStart);
    var head, last := cs[..5], WriteFile(StatePath(install), state);
    assert cs == head + [last];
    PrefixOk(s, w, head, [last]);
    RunAllSplits(s, w, head, [last]);
    var v := RunAll(s, w, head).w;
    RunAllStep(s, v, [last]);
    WritePlaces(s, v, install, State, state, Compose);
    assert [last][1..] == [];
    RunAllNone(s, ExecOk(s, v, last).w);
  }

  // ---------------------------------------------------------------------------
  // A bootstrap over an existing install
  // ---------------------------------------------------------------------------

  lemma TestFails(env: Env, w: World, install: string)
    requires IsRemotePath(install) && env.remote.outcome(|w.trail|).exit == 1 && !env.remote.lost(|w.trail|)
    ensures var t := ExitsZero(env, w, TestDirExists(install));
            t.r == Ok(false) && t.w.fs == w.fs && |t.w.trail| == |w.trail| + 1
  {
    hide IsRemotePath, Locate;
    assert Script(TestDirExists(install)) == [TestDir(install)];
  }

  lemma SurveyEnds(env: Env, w: World, install: string, hint: Option<OsKind>)
    requires IsRemotePath(install) && Survey(env, w, install, hint).r.Ok?
    ensures DetectOs(env, w, hint).r.Ok? && EnsureDockerStack(env, DetectOs(env, w, hint).w).r.Ok?
    ensures |Survey(env, w, install, hint).w.trail| == |Stacked(env, w, hint).trail| + 1
    ensures |w.trail| <= |Stacked(env, w, hint).trail|
  {
    hide DetectOs, EnsureDockerStack, IsRemotePath;
    DetectIdle(env, w, hint);
    StackIdle(env, DetectOs(env, w, hint).w);
    TestTakesOne(env, Stacked(env, w, hint), install);
  }

  lemma TestTakesOne(env: Env, w: World, install: string)
    requires IsRemotePath(install)
    ensures |ExitsZero(env, w, TestDirExists(install)).w.trail| == |w.trail| + 1
  {
    hide IsRemotePath, Locate;
    assert Script(TestDirExists(install)) == [TestDir(install)];
  }

  /** A survey whose last step fails reports the directory as missing, whatever is there. */
  lemma SurveyMisses(env: Env, w: World, install: string, hint: Option<OsKind>)
    requires IsRemotePath(install) && IsCalm(env.remote, |w.trail|) && Survey(env, w, install, hint).r.Ok?
    ensures var k := |Stacked(env, w, hint).trail|;
            var v := Survey(env.(remote := Disturb(env.remote, k, 0, None)), w, install, hint);
            v.r == Ok((DetectOs(env, w, hint).r.value, false)) && |v.w.trail| == k + 1
  {
    hide DetectOs, EnsureDockerStack, ExitsZero, IsRemotePath, Disturb, Agree;
    var k := |Stacked(env, w, hint).trail|;
    var s := Disturb(env.remote, k, 0, None);
    SurveyEnds(env, w, install, hint);
    Disturbed(env.remote, |w.trail|, k, 0, None);
    StackLocal(env, s, k, w, hint);
    TestFails(env.(remote := s), Stacked(env, w, hint), install);
  }

  /** For every calm host with an install, whatever it is, there is a schedule, different in the one step
      that tests for the directory, under which bootstrap installs over it: it reports a fresh install,
      and its own compose text and state replace what was there. */
  lemma DirectoryCanHide(env: Env, w: World, install: string, opts: BootstrapOptions) returns (s: Schedule)
    requires IsCalm(env.remote, |w.trail|) && IsRemotePath(install) && Locate(install) in w.fs.dirs
    requires var v := Survey(env, w, install, opts.osHint); v.r.Ok? && Prepared(env, v.w, opts).Some?
    ensures var t := Bootstrap(env.(remote := s), w, install, opts);
            var (state, compose) := Prepared(env, Survey(env, w, install, opts.osHint).w, opts).value;
            && t.r.Ok? && !t.r.value.alreadyInstalled && t.r.value.state == state
            && Runs(t.w, install, Some(compose), Some(env.toml.encode(state)))
  {
    hide Survey, Prepared, PlaceOf, Locate, IsRemotePath, Disturb, Agree, Fresh, HealthyThenReads, DetectOs, EnsureDockerStack;
    var v := Survey(env, w, install, opts.osHint);
    SurveyEnds(env, w, install, opts.osHint);
    SurveyMisses(env, w, install, opts.osHint);
    var k := |Stacked(env, w, opts.osHint).trail|;
    s := Disturb(env.remote, k, 0, None);
    Disturbed(env.remote, |w.trail|, k, 0, None);
    var f := env.(remote := s);
    var u := Survey(f, w, install, opts.osHint);
    SamePrepared(env, s, v.w, u.w, opts);
    FreshGoesThrough(f, u.w, install, opts, u.r.value.0);
    FreshSucceeds(f, u.w, install, opts, u.r.value.0);
  }
}
