// When nothing fails: on a host that runs every command and loses no reply, an update and a fresh
// bootstrap with valid pins go through.
module Progress {
  import opened Wrappers
  import opened Text
  import opened Paths
  import opened Validators
  import opened Listing
  import opened Commands
  import opened Shell
  import opened ShellFacts
  import opened State
  import opened Render
  import opened Retention
  import opened Protocol
  import opened RunFacts
  import opened UpdateFacts
  import opened UpdateTheorems
  import opened Recovery
  import opened Lineage
  import opened PathSafety
  import opened ForeignNames
  import opened Convergence

  /** From position `from` of the trail on, every command that can succeed does, and every reply arrives. */
  ghost predicate IsCalm(s: Schedule, from: nat) {
    forall k: nat :: from <= k ==> s.outcome(k).exit == 0 && !s.lost(k)
  }

  /** Nothing about the tree keeps the command from succeeding. */
  predicate IsReady(c: Cmd, fs: Fs) {
    match c
    case CopyFile(src, _) => Locate(src) in fs.files
    case CatFile(p) => Locate(p) in fs.files
    case ComposeUp(p) => Locate(p) + [COMPOSE_FILE] in fs.files
    case MkdirP(_) => true
    case WriteFile(_, _) => true
    case ComposePull(_) => true
    case ComposeConfig(_) => true
    case RemoveTree(_) => true
    case TcpProbe(_) => true
    case _ => false
  }

  lemma CalmReply(s: Schedule, w: World, c: Cmd)
    requires IsCalm(s, |w.trail|) && Accepts(c)
    ensures var t := Do(s, w, c); t.r.Ok? && t.r.value.code == RunScript(s, w, [], Script(c)).code
  {
    hide RunScript, Accepts, Script;
    assert !s.lost(|w.trail|);
  }

  lemma CalmWrite(s: Schedule, w: World, path: string, content: Bytes)
    requires IsCalm(s, |w.trail|)
    ensures RunScript(s, w, [], Script(WriteFile(path, content))).code == 0
  {
    hide Locate, Look, Apply;
    TempElsewhere(path);
    var prims := Script(WriteFile(path, content));
    var e := Apply(prims[0], [], w.fs, w.running, s.outcome(|w.trail|));
    var v := After(w, prims[0], e);
    CalmDecode(s, w, path, content);
    DecodeStep(s, w, path, content);
    assert prims[1..] == [prims[1], prims[2]] && [prims[1], prims[2]][1..] == [prims[2]];
    var d := Apply(prims[1], e.cwd, v.fs, v.running, s.outcome(|v.trail|));
    var u := After(v, prims[1], d);
    CalmMove(s, v, path, e.cwd);
    CalmReport(s, u, d.cwd, prims[2]);
    assert RunScript(s, v, e.cwd, [prims[1], prims[2]]) == RunScript(s, u, d.cwd, [prims[2]]);
  }

  lemma CalmDecode(s: Schedule, w: World, path: string, content: Bytes)
    requires IsCalm(s, |w.trail|)
    ensures Apply(Decode(Base64.Encode(content), path + TMP_SUFFIX), [], w.fs, w.running, s.outcome(|w.trail|)).code == 0
  {
    hide Locate;
    Base64.RoundTrip(content);
    assert s.outcome(|w.trail|).exit == 0;
  }

  lemma CalmMove(s: Schedule, w: World, path: string, cwd: Location)
    requires IsCalm(s, |w.trail|) && At(w.fs, Locate(path + TMP_SUFFIX)).Some? && Locate(path) != Locate(path + TMP_SUFFIX)
    ensures Apply(Move(path + TMP_SUFFIX, path), cwd, w.fs, w.running, s.outcome(|w.trail|)).code == 0
  {
    hide Locate;
    assert s.outcome(|w.trail|).exit == 0;
  }

  lemma CalmReport(s: Schedule, w: World, cwd: Location, prim: Prim)
    requires IsCalm(s, |w.trail|) && (IsReport(prim) || prim.ChangeDir?)
    ensures Apply(prim, cwd, w.fs, w.running, s.outcome(|w.trail|)).code == 0
  {
    hide Locate;
    assert s.outcome(|w.trail|).exit == 0;
  }

  lemma CalmPair(s: Schedule, w: World, path: string, prim: Prim)
    requires IsCalm(s, |w.trail|)
    requires IsReport(prim) || (prim == Up && Locate(path) + [COMPOSE_FILE] in w.fs.files)
    ensures RunScript(s, w, [], [ChangeDir(path), prim]).code == 0
  {
    hide Locate, Apply;
    var e := Apply(ChangeDir(path), [], w.fs, w.running, s.outcome(|w.trail|));
    var v := After(w, ChangeDir(path), e);
    CalmReport(s, w, [], ChangeDir(path));
    EnterStep(path, w.fs, w.running, s.outcome(|w.trail|));
    assert [ChangeDir(path), prim][1..] == [prim];
    if IsReport(prim) {
      CalmReport(s, v, e.cwd, prim);
    } else {
      CalmUp(s, v, e.cwd);
    }
    assert RunScript(s, w, [], [ChangeDir(path), prim]) == RunScript(s, v, e.cwd, [prim]);
  }

  lemma CalmUp(s: Schedule, w: World, cwd: Location)
    requires IsCalm(s, |w.trail|) && cwd + [COMPOSE_FILE] in w.fs.files
    ensures Apply(Up, cwd, w.fs, w.running, s.outcome(|w.trail|)).code == 0
  {
    hide KeyLocation;
    assert s.outcome(|w.trail|).exit == 0;
  }

  lemma CalmSingle(s: Schedule, w: World, c: Cmd)
    requires IsCalm(s, |w.trail|) && IsReady(c, w.fs)
    requires c.CopyFile? || c.CatFile? || c.MkdirP? || c.RemoveTree? || c.TcpProbe?
    ensures RunScript(s, w, [], Script(c)).code == 0
  {
    hide Locate, Prune, Ancestors;
    assert |Script(c)| == 1 && s.outcome(|w.trail|).exit == 0;
  }

  /** On a calm host an accepted command that the tree allows succeeds. */
  lemma CalmSucceeds(s: Schedule, w: World, c: Cmd)
    requires IsCalm(s, |w.trail|) && Accepts(c) && IsReady(c, w.fs)
    ensures Succeeds(s, w, c)
  {
    hide RunScript, Accepts, Do, Locate;
    CalmReply(s, w, c);
    if c.WriteFile? {
      CalmWrite(s, w, c.path, c.content);
    } else if c.ComposeUp? {
      CalmPair(s, w, c.path, Up);
    } else if c.ComposePull? {
      CalmPair(s, w, c.path, Pull);
    } else if c.ComposeConfig? {
      CalmPair(s, w, c.path, Config);
    } else {
      CalmSingle(s, w, c);
    }
  }

  lemma RunAllNext(s: Schedule, w: World, cs: seq<Cmd>)
    requires cs != [] && Succeeds(s, w, cs[0])
    ensures RunAll(s, w, cs) == RunAll(s, ExecOk(s, w, cs[0]).w, cs[1..])
  {
    hide ExecOk, Succeeds;
    SucceedsIsOk(s, w, cs[0]);
  }

  lemma RunAllFirst(s: Schedule, w: World, c: Cmd, rest: seq<Cmd>)
    requires Succeeds(s, w, c)
    ensures RunAll(s, w, [c] + rest) == RunAll(s, ExecOk(s, w, c).w, rest)
  {
    hide RunAll, ExecOk, Succeeds;
    RunAllNext(s, w, [c] + rest);
    assert ([c] + rest)[1..] == rest;
  }

  // ---------------------------------------------------------------------------
  // The phases
  // ---------------------------------------------------------------------------

  lemma FileAt(fs: Fs, l: Location)
    ensures At(fs, l).Some? <==> l in fs.files
  {
  }

  /** A copy between two places goes through, and leaves a third place as it was. */
  lemma CalmCopy(s: Schedule, w: World, install: string, p: Place, q: Place, r: Place)
    requires IsCalm(s, |w.trail|) && Accepts(CopyFile(PathOf(install, p, false), PathOf(install, q, false)))
    requires At(w.fs, PlaceOf(install, p)).Some? && !SamePlace(r, q)
    ensures var c := CopyFile(PathOf(install, p, false), PathOf(install, q, false));
            && Succeeds(s, w, c) && IsCalm(s, |ExecOk(s, w, c).w.trail|)
            && At(ExecOk(s, w, c).w.fs, PlaceOf(install, r)) == At(w.fs, PlaceOf(install, r))
  {
    hide ExecOk, PathOf, Locate, Accepts, SamePlace, Succeeds;
    FileAt(w.fs, PlaceOf(install, p));
    CalmSucceeds(s, w, CopyFile(PathOf(install, p, false), PathOf(install, q, false)));
    CopyPlaces(s, w, install, p, q, r);
  }

  lemma CalmBackup(s: Schedule, w: World, install: string, at: DateTime)
    requires IsCalm(s, |w.trail|) && IsRemotePath(install) && at.year <= 9999
    requires At(w.fs, PlaceOf(install, Compose)).Some? && At(w.fs, PlaceOf(install, State)).Some?
    ensures RunAll(s, w, BackupCommands(install, BackupDir(install, at))).r.Ok?
  {
    hide ExecOk, PathOf, PlaceOf, RunAll, Succeeds, IsRemotePath, Accepts;
    CommandsAccepted(install, at, "", "", "");
    BackupPaths(install, at);
    var cs := BackupCommands(install, BackupDir(install, at));
    var c, copies := cs[0], [cs[1]] + [cs[2]];
    assert c in cs && cs[1] in cs && cs[2] in cs && cs == [c] + copies;
    hide BackupCommands, IsCalm, At;
    CalmSucceeds(s, w, c);
    RunAllFirst(s, w, c, copies);
    MkdirLeaves(s, w, c, PlaceOf(install, Compose));
    MkdirLeaves(s, w, c, PlaceOf(install, State));
    CalmCopies(s, ExecOk(s, w, c).w, install, at);
  }

  lemma CalmCopies(s: Schedule, w: World, install: string, at: DateTime)
    requires IsCalm(s, |w.trail|)
    requires At(w.fs, PlaceOf(install, Compose)).Some? && At(w.fs, PlaceOf(install, State)).Some?
    requires Accepts(CopyFile(PathOf(install, Compose, false), PathOf(install, SavedCompose(at), false)))
    requires Accepts(CopyFile(PathOf(install, State, false), PathOf(install, SavedState(at), false)))
    ensures RunAll(s, w, [CopyFile(PathOf(install, Compose, false), PathOf(install, SavedCompose(at), false))] +
                         [CopyFile(PathOf(install, State, false), PathOf(install, SavedState(at), false))]).r.Ok?
  {
    hide ExecOk, PathOf, PlaceOf, RunAll, Succeeds, Accepts, IsCalm, At;
    var c := CopyFile(PathOf(install, Compose, false), PathOf(install, SavedCompose(at), false));
    var d := CopyFile(PathOf(install, State, false), PathOf(install, SavedState(at), false));
    CalmCopy(s, w, install, Compose, SavedCompose(at), State);
    RunAllFirst(s, w, c, [d]);
    var v := ExecOk(s, w, c).w;
    CalmCopy(s, v, install, State, SavedState(at), Compose);
    RunAllNext(s, v, [d]);
    assert [d][1..] == [];
    RunAllNone(s, ExecOk(s, v, d).w);
  }

  lemma CalmConfig(env: Env, w: World, install: string, at: DateTime)
    requires IsCalm(env.remote, |w.trail|) && IsRemotePath(install) && at.year <= 9999
    ensures SaveConfig(env, w, install, BackupDir(install, at)).r.Ok?
  {
    hide Do, RunAll, Succeeds, IsRemotePath, BackupDir;
    DatedPathsAccepted(install, at);
    CalmReply(env.remote, w, ComposeConfig(install));
    var c := Do(env.remote, w, ComposeConfig(install));
    var write := WriteFile(PosixJoin(BackupDir(install, at), CONFIG_FILE), c.r.value.stdout);
    CalmSucceeds(env.remote, c.w, write);
    RunAllNext(env.remote, c.w, [write]);
    assert [write][1..] == [];
    RunAllNone(env.remote, ExecOk(env.remote, c.w, write).w);
  }

  lemma CalmTakesBackup(env: Env, w: World, install: string, at: DateTime)
    requires IsCalm(env.remote, |w.trail|) && IsRemotePath(install) && at.year <= 9999
    requires At(w.fs, PlaceOf(install, Compose)).Some? && At(w.fs, PlaceOf(install, State)).Some?
    ensures TakeBackup(env, w, install, BackupDir(install, at)).r.Ok?
  {
    hide RunAll, SaveConfig, BackupCommands, BackupDir, PlaceOf, IsRemotePath;
    CalmBackup(env.remote, w, install, at);
    CalmConfig(env, RunAll(env.remote, w, BackupCommands(install, BackupDir(install, at))).w, install, at);
  }

  /** The state file is there and can be read. */
  predicate HasState(env: Env, fs: Fs, install: string) {
    At(fs, PlaceOf(install, State)).Some? && env.toml.decode(At(fs, PlaceOf(install, State)).value).Some?
  }

  lemma CalmLoad(env: Env, w: World, install: string)
    requires IsCalm(env.remote, |w.trail|) && IsRemotePath(install) && HasState(env, w.fs, install)
    ensures LoadState(env, w, install).r.Ok?
    ensures Some(LoadState(env, w, install).r.value) == env.toml.decode(At(w.fs, PlaceOf(install, State)).value)
  {
    hide Do, ExitsZero, ReadState, PathOf, Locate, StatePath, IsRemotePath, IsTransportError;
    HelpersNamePlaces(install, Instant(0, 1970, 1, 1, 0, 0, 0));
    LiveAccepted(install);
    var p := StatePath(install);
    FileAt(w.fs, PlaceOf(install, State));
    CalmTest(env, w, p);
    ExitsZeroIdle(env, w, TestFileExists(p));
    var t := ExitsZero(env, w, TestFileExists(p));
    CalmRead(env, t.w, install);
    LoadStateFinds(env, w, install);
  }

  lemma CalmTest(env: Env, w: World, path: string)
    requires IsCalm(env.remote, |w.trail|) && IsRemotePath(path)
    ensures ExitsZero(env, w, TestFileExists(path)).r == Ok(Locate(path) in w.fs.files)
  {
    hide IsRemotePath, Locate;
    assert Script(TestFileExists(path)) == [TestFile(path)];
  }

  lemma CalmRead(env: Env, w: World, install: string)
    requires IsCalm(env.remote, |w.trail|) && IsRemotePath(install) && HasState(env, w.fs, install)
    ensures ReadState(env, w, install).r.Ok?
  {
    hide Do, ExecOk, Succeeds, PathOf, Locate, StatePath, IsRemotePath;
    HelpersNamePlaces(install, Instant(0, 1970, 1, 1, 0, 0, 0));
    LiveAccepted(install);
    var c := CatFile(StatePath(install));
    FileAt(w.fs, PlaceOf(install, State));
    CalmSucceeds(env.remote, w, c);
    SucceedsIsOk(env.remote, w, c);
    CatSuccess(env.remote, w, StatePath(install));
  }

  lemma CalmWritePlace(s: Schedule, w: World, install: string, q: Place, content: Bytes, p: Place)
    requires IsCalm(s, |w.trail|) && IsRemotePath(PathOf(install, q, false)) && !SamePlace(p, q)
    ensures var c := WriteFile(PathOf(install, q, false), content);
            var v := ExecOk(s, w, c).w;
            && Succeeds(s, w, c) && IsCalm(s, |v.trail|) && At(v.fs, PlaceOf(install, q)) == Some(content)
            && At(v.fs, PlaceOf(install, p)) == At(w.fs, PlaceOf(install, p))
  {
    hide ExecOk, PathOf, PlaceOf, Succeeds, IsRemotePath, SamePlace;
    CalmSucceeds(s, w, WriteFile(PathOf(install, q, false), content));
    WritePlaces(s, w, install, q, content, p);
  }

  lemma CalmStarts(s: Schedule, w: World, install: string)
    requires IsCalm(s, |w.trail|) && IsRemotePath(install) && At(w.fs, PlaceOf(install, Compose)).Some?
    ensures RunAll(s, w, [ComposePull(install), ComposeUp(install)]).r.Ok?
  {
    hide ExecOk, PathOf, PlaceOf, RunAll, Succeeds, IsRemotePath, Locate;
    var c, d := ComposePull(install), ComposeUp(install);
    assert [c, d][1..] == [d] && [d][1..] == [];
    CalmSucceeds(s, w, c);
    PullLeaves(s, w, install);
    RunAllNext(s, w, [c, d]);
    var v := ExecOk(s, w, c).w;
    FixedPlaces(install);
    FileAt(v.fs, PlaceOf(install, Compose));
    CalmSucceeds(s, v, d);
    RunAllNext(s, v, [d]);
    RunAllNone(s, ExecOk(s, v, d).w);
  }

  lemma CalmDeploys(s: Schedule, w: World, install: string, compose: Bytes, state: Bytes)
    requires IsCalm(s, |w.trail|) && IsRemotePath(install)
    ensures RunAll(s, w, DeployCommands(install, compose, state)).r.Ok?
  {
    hide ExecOk, PathOf, PlaceOf, RunAll, Succeeds, IsRemotePath, ComposePath, StatePath;
    HelpersNamePlaces(install, Instant(0, 1970, 1, 1, 0, 0, 0));
    LiveAccepted(install);
    var c0, c1 := WriteFile(ComposePath(install), compose), WriteFile(StatePath(install), state);
    var rest := [ComposePull(install), ComposeUp(install)];
    assert DeployCommands(install, compose, state) == [c0] + ([c1] + rest);
    assert !SamePlace(Compose, State) && !SamePlace(State, Compose) && !SamePlace(Compose, Place.Env);
    hide DeployCommands, SamePlace, IsCalm, At;
    CalmWritePlace(s, w, install, Compose, compose, State);
    RunAllFirst(s, w, c0, [c1] + rest);
    var w1 := ExecOk(s, w, c0).w;
    CalmWritePlace(s, w1, install, State, state, Compose);
    RunAllFirst(s, w1, c1, rest);
    CalmStarts(s, ExecOk(s, w1, c1).w, install);
  }

  lemma CalmProbe(env: Env, w: World, port: Port)
    requires IsCalm(env.remote, |w.trail|)
    ensures var t := Do(env.remote, w, TcpProbe(port)); t.r.Ok? && t.r.value.code == 0
  {
    hide RunScript;
    CalmReply(env.remote, w, TcpProbe(port));
    CalmSingle(env.remote, w, TcpProbe(port));
  }

  /** A calm host is healthy in the first round. */
  lemma CalmHealth(env: Env, w: World)
    requires IsCalm(env.remote, |w.trail|)
    ensures HealthCheck(env, w).r.Ok?
  {
    hide Do;
    var ports := [HBBS_PORT, HBBR_PORT];
    assert ports[1..] == [HBBR_PORT] && [HBBR_PORT][1..] == [];
    CalmProbe(env, w, HBBS_PORT);
    var t := Do(env.remote, w, TcpProbe(HBBS_PORT));
    CalmProbe(env, t.w, HBBR_PORT);
    assert ProbeRound(env, w, ports) == ProbeRound(env, t.w, [HBBR_PORT]);
    assert ProbeRound(env, t.w, [HBBR_PORT]).r == Ok(true);
  }

  lemma {:induction false} CalmDeletes(env: Env, w: World, doomed: seq<Entry>, deleted: seq<string>)
    requires IsCalm(env.remote, |w.trail|) && !HasForeignName(doomed)
    ensures DeleteAll(env, w, doomed, deleted).r.Ok?
    decreases |doomed|
  {
    hide ExecOk, IsRemotePath, Succeeds;
    if doomed != [] {
      assert doomed[0] in doomed && forall e :: e in doomed[1..] ==> e in doomed;
      var c := RemoveTree(doomed[0].path);
      CalmSucceeds(env.remote, w, c);
      SucceedsIsOk(env.remote, w, c);
      CalmDeletes(env, ExecOk(env.remote, w, c).w, doomed[1..], deleted + [doomed[0].path]);
    }
  }

  lemma NoListingNoDeletion(env: Env, w: World, install: string, now: DateTime)
    requires var t := Do(env.remote, w, FindBackups(BackupsPath(install))); t.r.Ok? && t.r.value.code != 0
    ensures GcBackups(env, w, install, now).r == Ok([])
  {
    hide Do, ParseListing, Doomed, DeleteAll, BackupsPath;
  }

  lemma ListingThenDeletion(env: Env, w: World, install: string, now: DateTime)
    requires var t := Do(env.remote, w, FindBackups(BackupsPath(install))); t.r.Ok? && t.r.value.code == 0
    ensures var t := Do(env.remote, w, FindBackups(BackupsPath(install)));
            GcBackups(env, w, install, now) == DeleteAll(env, t.w, GcDoomed(env, w, install, now), [])
  {
    hide Do, ParseListing, Doomed, DeleteAll, BackupsPath;
  }

  lemma CalmCollects(env: Env, w: World, install: string, now: DateTime)
    requires IsCalm(env.remote, |w.trail|) && IsRemotePath(install) && !HasForeignName(GcDoomed(env, w, install, now))
    ensures GcBackups(env, w, install, now).r.Ok?
  {
    hide Do, RunScript, Script, GcBackups, GcDoomed, IsRemotePath, BackupsPath, HasForeignName;
    LiveAccepted(install);
    CalmReply(env.remote, w, FindBackups(BackupsPath(install)));
    var t := Do(env.remote, w, FindBackups(BackupsPath(install)));
    if t.r.value.code == 0 {
      CalmDeletes(env, t.w, GcDoomed(env, w, install, now), []);
      ListingThenDeletion(env, w, install, now);
    } else {
      NoListingNoDeletion(env, w, install, now);
    }
  }

  lemma CalmSettles(env: Env, w: World, install: string, now: DateTime, dir: Option<string>, newState: RelayState)
    requires IsCalm(env.remote, |w.trail|) && IsRemotePath(install) && !HasForeignName(SettleDoomed(env, w, install, now))
    ensures Settle(env, w, install, now, dir, newState).r.Ok?
  {
    hide HealthCheck, GcBackups, GcDoomed, IsRemotePath, HasForeignName;
    CalmHealth(env, w);
    CalmCollects(env, HealthCheck(env, w).w, install, now);
  }

  // ---------------------------------------------------------------------------
  // The whole update
  // ---------------------------------------------------------------------------

  lemma CalmDeploy(env: Env, w: World, install: string, opts: UpdateOptions, images: seq<ImageUpdate>, now: DateTime,
                   dir: Option<string>)
    requires IsCalm(env.remote, |w.trail|) && IsRemotePath(install) && HasState(env, w.fs, install)
    requires AllValid(PinsOf(images, now)) && !HasForeignName(DeployDoomed(env, w, install, opts, images, now))
    ensures Deploy(env, w, install, opts, images, now, dir).r.Ok?
  {
    hide LoadState, RunAll, RenderPins, Settle, DeployCommands, SettleDoomed, IsRemotePath, HasState, HasForeignName,
         AllValid;
    CalmLoad(env, w, install);
    var l := LoadState(env, w, install);
    var pins := PinsOf(images, now);
    RenderInserts(opts.template, pins);
    var newState := ApplyUpdate(l.r.value, pins, now);
    var compose, state := RenderPins(opts.template, pins).value, env.toml.encode(newState);
    CalmDeploys(env.remote, l.w, install, compose, state);
    CalmSettles(env, RunAll(env.remote, l.w, DeployCommands(install, compose, state)).w, install, now, dir, newState);
  }

  /** What a replacing update needs, besides a calm host: valid pins, a backup that can be taken if one
      is wanted, and no refused name in the collector's way. */
  predicate CanReplace(env: Env, w: World, install: string, opts: UpdateOptions, images: seq<ImageUpdate>) {
    var now := env.wall(|w.trail|);
    && AllValid(PinsOf(images, now))
    && (opts.skipBackup || (At(w.fs, PlaceOf(install, Compose)).Some? && now.year <= 9999))
    && !MeetsForeignName(env, w, install, opts, images)
  }

  lemma CalmReplace(env: Env, w: World, install: string, opts: UpdateOptions, images: seq<ImageUpdate>)
    requires IsCalm(env.remote, |w.trail|) && IsRemotePath(install) && HasState(env, w.fs, install)
    requires CanReplace(env, w, install, opts, images)
    ensures Replace(env, w, install, opts, images).r.Ok?
  {
    hide TakeBackup, Deploy, BackupDir, PlaceOf, IsRemotePath, HasForeignName, DeployDoomed, MeetsForeignName, AllValid;
    MeetsIsForeign(env, w, install, opts, images);
    var now := env.wall(|w.trail|);
    if opts.skipBackup {
      CalmDeploy(env, w, install, opts, images, now, None);
    } else {
      var b := TakeBackup(env, w, install, BackupDir(install, now));
      CalmTakesBackup(env, w, install, now);
      TakeBackupQuiet(env, w, install, now, State);
      CalmDeploy(env, b.w, install, opts, images, now, Some(BackupDir(install, now)));
    }
  }

  lemma DeployNeedsValid(env: Env, w: World, install: string, opts: UpdateOptions, images: seq<ImageUpdate>, now: DateTime,
                         dir: Option<string>)
    requires Deploy(env, w, install, opts, images, now, dir).r.Ok?
    ensures AllValid(PinsOf(images, now))
  {
    hide LoadState, RunAll, RenderPins, Settle, DeployCommands, AllValid;
    RenderInserts(opts.template, PinsOf(images, now));
  }

  /** Whatever the host does, a replacing update that succeeds had what it needs. */
  lemma ReplaceNeeds(env: Env, w: World, install: string, opts: UpdateOptions, images: seq<ImageUpdate>)
    requires IsRemotePath(install) && Replace(env, w, install, opts, images).r.Ok?
    ensures CanReplace(env, w, install, opts, images)
  {
    hide TakeBackup, Deploy, BackupDir, PlaceOf, IsRemotePath, HasForeignName, ReplaceDoomed, MeetsForeignName, AllValid,
         HealthyAtTheEnd, Runs;
    var now := env.wall(|w.trail|);
    MeetsIsForeign(env, w, install, opts, images);
    if HasForeignName(ReplaceDoomed(env, w, install, opts, images)) {
      ReplaceFails(env, w, install, opts, images);
    }
    if opts.skipBackup {
      DeployNeedsValid(env, w, install, opts, images, now, None);
    } else {
      var b := TakeBackup(env, w, install, BackupDir(install, now));
      BackupPathError(env, w, install, now);
      BackupTaken(env, w, install, now);
      DeployNeedsValid(env, b.w, install, opts, images, now, Some(BackupDir(install, now)));
    }
  }

  /** What a whole update needs: a confirmation, a readable state file, answers for every pin, and if
      there is something to update, what replacing needs. */
  predicate CanUpdate(env: Env, w: World, install: string, opts: UpdateOptions) {
    && (opts.assumeYes || opts.isTty) && HasState(env, w.fs, install)
    && var state, v := env.toml.decode(At(w.fs, PlaceOf(install, State)).value).value, LoadState(env, w, install).w;
    var checked := CheckPins(env, |v.trail|, state.images, 0);
    checked.Ok? && (AnyUpdate(checked.value) ==> CanReplace(env, v, install, opts, checked.value))
  }

  /** Progress: on a calm host an update of an accepted install path succeeds exactly when it is
      confirmed, the state file is readable, every pin resolves, and, if there is something to update,
      the new pins are valid, a wanted backup can be taken (a live compose file, a year the allowlist
      can print), and no directory with a refused name is in the collector's way. */
  lemma UpdateGoesThrough(env: Env, w: World, install: string, opts: UpdateOptions)
    requires IsCalm(env.remote, |w.trail|) && IsRemotePath(install)
    ensures Update(env, w, install, opts).r.Ok? <==> CanUpdate(env, w, install, opts)
  {
    hide LoadState, Replace, PlaceOf, IsRemotePath, CanReplace, CheckPins, HasState;
    var s := LoadState(env, w, install);
    LoadStateIdle(env, w, install);
    IdleSameFs(w, s.w);
    if HasState(env, w.fs, install) {
      CalmLoad(env, w, install);
      CalmLoad(env, s.w, install);
    }
    if s.r.Ok? {
      LoadedHasState(env, w, install);
      var c := CheckUpdates(env, w, install);
      if c.r.Ok? {
        if CanReplace(env, c.w, install, opts, c.r.value) {
          CalmReplace(env, c.w, install, opts, c.r.value);
        }
        if Replace(env, c.w, install, opts, c.r.value).r.Ok? {
          ReplaceNeeds(env, c.w, install, opts, c.r.value);
        }
      }
    }
  }

  lemma LoadedHasState(env: Env, w: World, install: string)
    requires LoadState(env, w, install).r.Ok?
    ensures HasState(env, w.fs, install)
    ensures Some(LoadState(env, w, install).r.value) == env.toml.decode(At(w.fs, PlaceOf(install, State)).value)
  {
    hide LoadState, PlaceOf;
    LoadStateReads(env, w, install);
  }

  // ---------------------------------------------------------------------------
  // A fresh bootstrap
  // ---------------------------------------------------------------------------

  lemma CalmUps(s: Schedule, w: World, install: string)
    requires IsCalm(s, |w.trail|) && IsRemotePath(install) && At(w.fs, PlaceOf(install, Compose)).Some?
    ensures RunAll(s, w, [ComposeUp(install)]).r.Ok?
  {
    hide ExecOk, PathOf, PlaceOf, RunAll, Succeeds, IsRemotePath, Locate;
    var d := ComposeUp(install);
    assert [d][1..] == [];
    FixedPlaces(install);
    FileAt(w.fs, PlaceOf(install, Compose));
    CalmSucceeds(s, w, d);
    RunAllNext(s, w, [d]);
    RunAllNone(s, ExecOk(s, w, d).w);
  }

  lemma CalmWrites(s: Schedule, w: World, install: string, compose: Bytes, envContents: Bytes, state: Bytes)
    requires IsCalm(s, |w.trail|) && IsRemotePath(install)
    ensures RunAll(s, w, WritingCommands(install, compose, envContents, state)).r.Ok?
  {
    hide ExecOk, PathOf, PlaceOf, RunAll, Succeeds, IsRemotePath, ComposePath, EnvPath, StatePath;
    HelpersNamePlaces(install, Instant(0, 1970, 1, 1, 0, 0, 0));
    LiveAccepted(install);
    var c0, c1 := WriteFile(ComposePath(install), compose), WriteFile(EnvPath(install), envContents);
    var c2, rest := WriteFile(StatePath(install), state), [ComposeUp(install)];
    assert WritingCommands(install, compose, envContents, state) == [c0] + ([c1] + ([c2] + rest));
    assert !SamePlace(Compose, State) && !SamePlace(State, Compose) && !SamePlace(Compose, Place.Env);
    hide WritingCommands, SamePlace, IsCalm, At;
    CalmWritePlace(s, w, install, Compose, compose, State);
    RunAllFirst(s, w, c0, [c1] + ([c2] + rest));
    var w1 := ExecOk(s, w, c0).w;
    CalmWritePlace(s, w1, install, Place.Env, envContents, Compose);
    RunAllFirst(s, w1, c1, [c2] + rest);
    var w2 := ExecOk(s, w1, c1).w;
    CalmWritePlace(s, w2, install, State, state, Compose);
    RunAllFirst(s, w2, c2, rest);
    CalmUps(s, ExecOk(s, w2, c2).w, install);
  }

  lemma CalmMkdir(s: Schedule, w: World, path: string, rest: seq<Cmd>)
    requires IsCalm(s, |w.trail|) && IsRemotePath(path)
    ensures RunAll(s, w, [MkdirP(path)] + rest) == RunAll(s, ExecOk(s, w, MkdirP(path)).w, rest)
  {
    hide ExecOk, RunAll, Succeeds, IsRemotePath;
    CalmSucceeds(s, w, MkdirP(path));
    RunAllNext(s, w, [MkdirP(path)] + rest);
    assert ([MkdirP(path)] + rest)[1..] == rest;
  }

  lemma CalmInstalls(s: Schedule, w: World, install: string, compose: Bytes, envContents: Bytes, state: Bytes)
    requires IsCalm(s, |w.trail|) && IsRemotePath(install)
    ensures RunAll(s, w, InstallCommands(install, compose, envContents, state)).r.Ok?
  {
    hide ExecOk, RunAll, IsRemotePath, ComposePath, EnvPath, StatePath, DataPath, BackupsPath;
    LiveAccepted(install);
    var c0, c1, c2 := MkdirP(install), MkdirP(DataPath(install)), MkdirP(BackupsPath(install));
    var rest := WritingCommands(install, compose, envContents, state);
    assert InstallCommands(install, compose, envContents, state) == [c0] + ([c1] + ([c2] + rest));
    CalmMkdir(s, w, install, [c1] + ([c2] + rest));
    var w1 := ExecOk(s, w, c0).w;
    CalmMkdir(s, w1, DataPath(install), [c2] + rest);
    var w2 := ExecOk(s, w1, c1).w;
    CalmMkdir(s, w2, BackupsPath(install), rest);
    CalmWrites(s, ExecOk(s, w2, c2).w, install, compose, envContents, state);
  }

  /** Progress: on a calm host a fresh bootstrap succeeds exactly when every digest resolves and the
      compose text can be rendered. */
  lemma FreshGoesThrough(env: Env, w: World, install: string, opts: BootstrapOptions, os: OsKind)
    requires IsCalm(env.remote, |w.trail|) && IsRemotePath(install)
    ensures Fresh(env, w, install, opts, os).r.Ok? <==> Prepared(env, w, opts).Some?
  {
    hide RunAll, HealthCheck, RenderPins, ResolvePins, InstallCommands, WithKey, IsRemotePath;
    if Prepared(env, w, opts).Some? {
      var (state, compose) := Prepared(env, w, opts).value;
      CalmInstalls(env.remote, w, install, compose, opts.envContents, env.toml.encode(state));
      var t := RunAll(env.remote, w, InstallCommands(install, compose, opts.envContents, env.toml.encode(state)));
      CalmHealth(env, t.w);
      WithKeyReports(env, HealthCheck(env, t.w).w, install, state, false, os);
    }
  }
}
