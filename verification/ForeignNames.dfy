// A directory among the backups that the tool did not make, with a name the allowlist refuses: when
// it fails an update, and in what state the update leaves the host.
module ForeignNames {
  import opened Wrappers
  import opened Text
  import opened Paths
  import opened Validators
  import opened Listing
  import opened Commands
  import opened Shell
  import opened ShellFacts
  import opened State
  import opened Render
  import opened Retention
  import opened Protocol
  import opened RunFacts
  import opened UpdateFacts
  import opened UpdateTheorems
  import opened Recovery
  import opened LiveFiles
  import opened PathSafety

  // ---------------------------------------------------------------------------
  // Refused names, read off the listing
  // ---------------------------------------------------------------------------

  lemma BackupsPathJoins(install: string, name: string)
    ensures PathOfEntry(BackupsPath(install), name) == PosixJoin(BackupsPath(install), name)
  {
    var dir := BackupsPath(install);
    assert dir[|dir| - 1] == "backups"[6] == 's';
    assert TrimSlashes(dir) == dir;
  }

  /** Below an accepted install path a listed directory is refused exactly for a character outside the
      allowlist in its name. */
  lemma RefusedName(install: string, e: Listed)
    requires IsRemotePath(install) && IsListed(e)
    ensures IsRemotePath(PathOfEntry(BackupsPath(install), e.name)) <==> IsPlain(e.name)
  {
    hide IsRemotePath, IsSafeName, BackupsPath, TrimSlashes;
    LiveAccepted(install);
    BackupsPathJoins(install, e.name);
    assert |e.name| > 2;
    PlainName(e.name);
    if IsPlain(e.name) {
      JoinAccepted(BackupsPath(install), e.name);
    } else {
      OddCharacter(BackupsPath(install) + "/", e.name);
    }
  }

  lemma OddCharacter(head: string, name: string)
    requires !IsPlain(name) && '/' !in name
    ensures !IsRemotePath(head + name)
  {
    var i :| 0 <= i < |name| && !IsPathChar(name[i]);
    assert (head + name)[|head| + i] == name[i];
    assert name[i] in head + name;
  }

  /** Past the first three of the newest-first order and before the cutoff stands a directory with a
      character outside the allowlist in its name. */
  predicate StopsCollector(install: string, listing: seq<Listed>, cutoff: int) {
    var sorted := SortNewestFirst(Entries(BackupsPath(install), listing));
    exists k, i ::
      && MIN_RETAINED_BACKUPS <= k < |sorted| && 0 <= i < |listing|
      && sorted[k] == Entry(listing[i].mtime, PathOfEntry(BackupsPath(install), listing[i].name))
      && sorted[k].epoch < cutoff && !IsPlain(listing[i].name)
  }

  lemma StopsMakesForeign(install: string, listing: seq<Listed>, cutoff: int, k: nat, i: nat)
    requires IsRemotePath(install) && i < |listing| && IsListed(listing[i]) && !IsPlain(listing[i].name)
    requires var sorted := SortNewestFirst(Entries(BackupsPath(install), listing));
             && MIN_RETAINED_BACKUPS <= k < |sorted| && sorted[k].epoch < cutoff
             && sorted[k] == Entry(listing[i].mtime, PathOfEntry(BackupsPath(install), listing[i].name))
    ensures HasForeignName(Doomed(Entries(BackupsPath(install), listing), cutoff))
  {
    hide SortNewestFirst, BackupsPath, Kept, Doomed, IsRemotePath, IsPlain, IsListed, PathOfEntry;
    var es := Entries(BackupsPath(install), listing);
    var sorted, kept, doomed := SortNewestFirst(es), Kept(es, cutoff), Doomed(es, cutoff);
    RetentionPlan(es, cutoff);
    RefusedName(install, listing[i]);
    assert k >= |kept|;
    assert doomed[k - |kept|] == sorted[k];
  }

  lemma ForeignMakesStops(install: string, listing: seq<Listed>, cutoff: int, e: Entry)
    requires IsRemotePath(install) && forall f :: f in listing ==> IsListed(f)
    requires e in Doomed(Entries(BackupsPath(install), listing), cutoff) && !IsRemotePath(e.path)
    ensures StopsCollector(install, listing, cutoff)
  {
    hide SortNewestFirst, BackupsPath, Kept, Doomed, IsRemotePath, IsPlain, IsListed, PathOfEntry;
    var es := Entries(BackupsPath(install), listing);
    var sorted, kept, doomed := SortNewestFirst(es), Kept(es, cutoff), Doomed(es, cutoff);
    RetentionPlan(es, cutoff);
    var j :| 0 <= j < |doomed| && doomed[j] == e;
    var i := DoomedListed(BackupsPath(install), listing, cutoff, e);
    assert listing[i] in listing;
    RefusedName(install, listing[i]);
    assert sorted[|kept| + j] == e;
  }

  lemma StopsIsForeign(install: string, listing: seq<Listed>, cutoff: int)
    requires IsRemotePath(install) && forall e :: e in listing ==> IsListed(e)
    ensures HasForeignName(Doomed(Entries(BackupsPath(install), listing), cutoff)) <==> StopsCollector(install, listing, cutoff)
  {
    hide SortNewestFirst, BackupsPath, Doomed, IsRemotePath, IsPlain, IsListed, PathOfEntry;
    if StopsCollector(install, listing, cutoff) {
      var sorted := SortNewestFirst(Entries(BackupsPath(install), listing));
      var k, i :| && MIN_RETAINED_BACKUPS <= k < |sorted| && 0 <= i < |listing|
                  && sorted[k] == Entry(listing[i].mtime, PathOfEntry(BackupsPath(install), listing[i].name))
                  && sorted[k].epoch < cutoff && !IsPlain(listing[i].name);
      assert listing[i] in listing;
      StopsMakesForeign(install, listing, cutoff, k, i);
    }
    if HasForeignName(Doomed(Entries(BackupsPath(install), listing), cutoff)) {
      var e :| e in Doomed(Entries(BackupsPath(install), listing), cutoff) && !IsRemotePath(e.path);
      ForeignMakesStops(install, listing, cutoff, e);
    }
  }

  /** One such listing, at a cutoff of 1000: the fourth directory has a blank in its name. */
  lemma ForeignNameExample(install: string)
    ensures StopsCollector(install, [Listed(1003, "0", "pre-update-a"), Listed(1002, "0", "pre-update-b"),
                                     Listed(1001, "0", "pre-update-c"), Listed(999, "0", "pre-update-my notes")], 1000)
  {
    var dir := BackupsPath(install);
    var listing := [Listed(1003, "0", "pre-update-a"), Listed(1002, "0", "pre-update-b"),
                    Listed(1001, "0", "pre-update-c"), Listed(999, "0", "pre-update-my notes")];
    hide BackupsPath, PathOfEntry;
    var es := Entries(dir, listing);
    assert es == [es[0], es[1], es[2], es[3]];
    SortedAlready(es[0], es[1], es[2], es[3]);
    assert listing[3].name[13] == ' ';
  }

  lemma SortedAlready(a: Entry, b: Entry, c: Entry, d: Entry)
    requires a.epoch > b.epoch > c.epoch > d.epoch
    ensures SortNewestFirst([a, b, c, d]) == [a, b, c, d]
  {
    assert [a, b, c, d][1..] == [b, c, d] && [b, c, d][1..] == [c, d] && [c, d][1..] == [d] && [d][1..] == [];
    assert SortNewestFirst([d]) == [d];
    assert SortNewestFirst([c, d]) == [c, d];
    assert SortNewestFirst([b, c, d]) == [b, c, d];
  }

  // ---------------------------------------------------------------------------
  // What it does to an update
  // ---------------------------------------------------------------------------

  lemma {:induction false} DeleteAllFails(env: Env, w: World, doomed: seq<Entry>, deleted: seq<string>)
    requires HasForeignName(doomed)
    ensures DeleteAll(env, w, doomed, deleted).r.Err?
    decreases |doomed|
  {
    hide RunScript, IsRemotePath;
    if IsRemotePath(doomed[0].path) {
      var e :| e in doomed && !IsRemotePath(e.path);
      assert e in doomed[1..];
      DeleteAllFails(env, ExecOk(env.remote, w, RemoveTree(doomed[0].path)).w, doomed[1..], deleted + [doomed[0].path]);
    }
  }

  lemma GcFails(env: Env, w: World, install: string, now: DateTime)
    requires HasForeignName(GcDoomed(env, w, install, now))
    ensures GcBackups(env, w, install, now).r.Err?
  {
    hide Do, ParseListing, Doomed, DeleteAll, BackupsPath, HasForeignName;
    NoneForeign();
    var t := Do(env.remote, w, FindBackups(BackupsPath(install)));
    DeleteAllFails(env, t.w, GcDoomed(env, w, install, now), []);
  }

  lemma NoneForeign()
    ensures !HasForeignName([])
  {
  }

  /** The collector starts only from the launched version, running and healthy. */
  lemma SettleFails(env: Env, w: World, install: string, now: DateTime, dir: Option<string>, newState: RelayState)
    requires HasForeignName(SettleDoomed(env, w, install, now))
    ensures var t := Settle(env, w, install, now, dir, newState);
            && t.r.Err? && t.w.running == w.running && HealthyAtTheEnd(t.w.trail, |w.trail|)
            && At(t.w.fs, PlaceOf(install, Compose)) == At(w.fs, PlaceOf(install, Compose))
            && At(t.w.fs, PlaceOf(install, State)) == At(w.fs, PlaceOf(install, State))
  {
    hide HealthCheck, GcBackups, PlaceOf, EndsHealthy, GcDoomed, HasForeignName;
    NoneForeign();
    var h := HealthCheck(env, w);
    HealthCheckIdle(env, w);
    HealthCheckEndsHealthy(env, w);
    GcFails(env, h.w, install, now);
    GcCollects(env, h.w, install, now);
    GcLeavesLive(env, h.w, install, now, Compose);
    GcLeavesLive(env, h.w, install, now, State);
    assert GcBackups(env, h.w, install, now).w.trail[..|h.w.trail|] == h.w.trail;
  }

  lemma DeployFails(env: Env, w: World, install: string, opts: UpdateOptions, images: seq<ImageUpdate>, now: DateTime,
                    dir: Option<string>)
    requires HasForeignName(DeployDoomed(env, w, install, opts, images, now))
    ensures var t, target := Deploy(env, w, install, opts, images, now, dir), DeployTarget(env, w, install, opts, images, now);
            && t.r.Err? && target.Some? && HealthyAtTheEnd(t.w.trail, |w.trail|)
            && Runs(t.w, install, Some(target.value.compose), Some(target.value.state))
  {
    hide Deploy, Settle, Launched, PlaceOf, DeployTarget, SettleDoomed, HasForeignName, HealthyAtTheEnd;
    NoneForeign();
    DeploySettles(env, w, install, opts, images, now, dir);
    LaunchedTarget(env, w, install, opts, images, now);
    var (v, newState, _) := Launched(env, w, install, opts, images, now).value;
    SettleFails(env, v, install, now, dir, newState);
    LaunchedLater(env, w, install, opts, images, now);
    HealthySince(Deploy(env, w, install, opts, images, now, dir).w.trail, |w.trail|, |v.trail|);
  }

  lemma ReplaceFails(env: Env, w: World, install: string, opts: UpdateOptions, images: seq<ImageUpdate>)
    requires HasForeignName(ReplaceDoomed(env, w, install, opts, images))
    ensures var t, target := Replace(env, w, install, opts, images), ReplaceTarget(env, w, install, opts, images);
            && t.r.Err? && target.Some? && HealthyAtTheEnd(t.w.trail, |w.trail|)
            && Runs(t.w, install, Some(target.value.compose), Some(target.value.state))
  {
    hide TakeBackup, Deploy, BackupDir, PlaceOf, DeployTarget, DeployDoomed, HasForeignName, HealthyAtTheEnd, Runs;
    NoneForeign();
    var now, b := env.wall(|w.trail|), Secured(env, w, install, opts);
    var dir := if opts.skipBackup then None else Some(BackupDir(install, now));
    DeployFails(env, b.w, install, opts, images, now, dir);
    HealthySince(Replace(env, w, install, opts, images).w.trail, |w.trail|, |b.w.trail|);
  }

  /** A refused name among the entries the collector picks fails the update, with the new version live,
      running and healthy. */
  lemma ForeignNameFailsUpdate(env: Env, w: World, install: string, opts: UpdateOptions)
    requires HasForeignName(UpdateDoomed(env, w, install, opts))
    ensures var t, target := Update(env, w, install, opts), UpdateTarget(env, w, install, opts);
            && t.r.Err? && target.Some? && HealthyAtTheEnd(t.w.trail, |w.trail|)
            && Runs(t.w, install, Some(target.value.compose), Some(target.value.state))
  {
    hide CheckUpdates, LoadState, Replace, DeployTarget, ReplaceDoomed, Secured, HasForeignName, HealthyAtTheEnd, Runs;
    NoneForeign();
    var (v, images) := Decided(env, w, install, opts).value;
    ReplaceFails(env, v, install, opts, images);
    HealthySince(Update(env, w, install, opts).w.trail, |w.trail|, |v.trail|);
  }

  /** The condition, on the listing the run's collector reads. */
  predicate MeetsForeignName(env: Env, w: World, install: string, opts: UpdateOptions, images: seq<ImageUpdate>) {
    var listing := ReplaceListing(env, w, install, opts, images);
    listing.Some? && StopsCollector(install, listing.value, env.wall(|w.trail|).epoch - RETENTION_SECONDS)
  }

  lemma MeetsIsForeign(env: Env, w: World, install: string, opts: UpdateOptions, images: seq<ImageUpdate>)
    requires IsRemotePath(install)
    ensures HasForeignName(ReplaceDoomed(env, w, install, opts, images)) <==> MeetsForeignName(env, w, install, opts, images)
  {
    hide ReplaceDoomed, ReplaceListing, Doomed, BackupsPath, StopsCollector, IsListed, IsRemotePath, HasForeignName;
    NoneForeign();
    ReplacePlan(env, w, install, opts, images);
    var listing := ReplaceListing(env, w, install, opts, images);
    if listing.Some? {
      StopsIsForeign(install, listing.value, env.wall(|w.trail|).epoch - RETENTION_SECONDS);
    }
  }

  // ---------------------------------------------------------------------------
  // A host without refused names
  // ---------------------------------------------------------------------------

  lemma ApplySameDirs(prim: Prim, cwd: Location, fs: Fs, running: Option<Bytes>, o: Outcome)
    requires !prim.Mkdir? && !prim.Remove?
    ensures Apply(prim, cwd, fs, running, o).fs.dirs == fs.dirs
  {
  }

  lemma {:induction false} ScriptSameDirs(s: Schedule, w: World, cwd: Location, prims: seq<Prim>)
    requires prims != [] && forall p :: p in prims ==> !p.Mkdir? && !p.Remove?
    ensures RunScript(s, w, cwd, prims).w.fs.dirs == w.fs.dirs
    decreases |prims|
  {
    hide Apply;
    assert prims[0] in prims && forall p :: p in prims[1..] ==> p in prims;
    ApplySameDirs(prims[0], cwd, w.fs, w.running, s.outcome(|w.trail|));
    var e := Apply(prims[0], cwd, w.fs, w.running, s.outcome(|w.trail|));
    if e.code == 0 && |prims| > 1 {
      ScriptSameDirs(s, After(w, prims[0], e), e.cwd, prims[1..]);
    }
  }

  lemma DoSameDirs(s: Schedule, w: World, c: Cmd)
    requires !c.MkdirP? && !c.RemoveTree?
    ensures Do(s, w, c).w.fs.dirs == w.fs.dirs
  {
    hide Accepts, RunScript;
    if Accepts(c) {
      ScriptSameDirs(s, w, [], Script(c));
    }
  }

  lemma {:induction false} RunAllSameDirs(s: Schedule, w: World, cs: seq<Cmd>)
    requires forall c :: c in cs ==> !c.MkdirP? && !c.RemoveTree?
    ensures RunAll(s, w, cs).w.fs.dirs == w.fs.dirs
    decreases |cs|
  {
    hide Do;
    if cs != [] {
      assert cs[0] in cs;
      DoSameDirs(s, w, cs[0]);
      RunAllSameDirs(s, ExecOk(s, w, cs[0]).w, cs[1..]);
    }
  }

  lemma MkdirMakes(s: Schedule, w: World, path: string)
    requires Succeeds(s, w, MkdirP(path))
    ensures ExecOk(s, w, MkdirP(path)).w.fs.dirs == w.fs.dirs + Ancestors(Locate(path))
  {
    hide Locate, Accepts, Do, ExecOk, Succeeds, Ancestors;
    SingleSuccess(s, w, MkdirP(path));
  }

  /** The directories a backup adds. */
  function MadeDirs(install: string, opts: UpdateOptions, at: DateTime): set<Location> {
    if opts.skipBackup then {} else Ancestors(Locate(BackupDir(install, at)))
  }

  lemma SecuredDirs(env: Env, w: World, install: string, opts: UpdateOptions)
    requires Secured(env, w, install, opts).r.Ok?
    ensures Secured(env, w, install, opts).w.fs.dirs == w.fs.dirs + MadeDirs(install, opts, env.wall(|w.trail|))
  {
    hide Do, RunAll, ExecOk, Succeeds, BackupDir, Ancestors, Locate, ComposePath, StatePath, PosixJoin;
    if !opts.skipBackup {
      var dir := BackupDir(install, env.wall(|w.trail|));
      var cs := BackupCommands(install, dir);
      RunAllStep(env.remote, w, cs);
      MkdirMakes(env.remote, w, dir);
      RunAllSameDirs(env.remote, ExecOk(env.remote, w, cs[0]).w, cs[1..]);
      var t := RunAll(env.remote, w, cs);
      DoSameDirs(env.remote, t.w, ComposeConfig(install));
      var c := Do(env.remote, t.w, ComposeConfig(install));
      RunAllSameDirs(env.remote, c.w, [WriteFile(PosixJoin(dir, CONFIG_FILE), c.r.value.stdout)]);
    }
  }

  lemma LaunchedSameDirs(env: Env, w: World, install: string, opts: UpdateOptions, images: seq<ImageUpdate>, now: DateTime)
    requires Launched(env, w, install, opts, images, now).Some?
    ensures Launched(env, w, install, opts, images, now).value.0.fs.dirs == w.fs.dirs
  {
    hide LoadState, RunAll, RenderPins, ComposePath, StatePath;
    LoadStateIdle(env, w, install);
    var l := LoadState(env, w, install);
    var newState := ApplyUpdate(l.r.value, PinsOf(images, now), now);
    var compose := RenderPins(opts.template, PinsOf(images, now)).value;
    RunAllSameDirs(env.remote, l.w, DeployCommands(install, compose, env.toml.encode(newState)));
  }

  /** A backup directory whose name the allowlist refuses. */
  predicate HasRefusedDir(install: string, dirs: set<Location>) {
    exists d :: d in dirs && IsBackupLocation(install, d) && "pre-update-" <= d[|d| - 1] && !IsPlain(d[|d| - 1])
  }

  lemma ListedDirAccepted(install: string, opts: UpdateOptions, at: DateTime, dirs: set<Location>, e: Listed)
    requires IsRemotePath(install) && !HasRefusedDir(install, dirs) && IsListed(e)
    requires Locate(BackupsPath(install)) + [e.name] in dirs + MadeDirs(install, opts, at)
    requires opts.skipBackup || at.year <= 9999
    ensures IsRemotePath(PathOfEntry(BackupsPath(install), e.name))
  {
    hide Locate, IsRemotePath, IsPlain, IsListed, BackupsPath, BackupName, PathOfEntry;
    RefusedName(install, e);
    BackupEntryLocation(install, e);
    ListedPrefix(e);
    var d := Locate(BackupsPath(install)) + [e.name];
    BackupsLocation(install);
    assert d == Locate(install) + ["backups"] + [e.name];
    if d in dirs {
      assert IsBackupLocation(install, d) && d[|d| - 1] == e.name;
    } else {
      BackupDirLocation(install, at);
      BackupPathEntry(install, at);
      DatedPathsAccepted(install, at);
      var b := Locate(install) + ["backups", BackupName(at)];
      assert |d| == |b| && d[|d| - 1] == b[|b| - 1];
    }
  }

  lemma BackupsLocation(install: string)
    ensures Locate(BackupsPath(install)) == Locate(install) + ["backups"]
  {
    hide Locate;
    LocateJoin(install, "backups");
  }

  lemma ListedPrefix(e: Listed)
    requires IsListed(e)
    ensures "pre-update-" <= e.name
  {
  }

  /** On a host without such a directory no collector meets one, whatever else happens. */
  lemma NoRefusedDirNoForeign(env: Env, w: World, install: string, opts: UpdateOptions)
    requires IsRemotePath(install) && !HasRefusedDir(install, w.fs.dirs)
    ensures !HasForeignName(UpdateDoomed(env, w, install, opts))
  {
    hide CheckUpdates, Secured, Launched, HealthCheck, GcDoomed, Locate, IsRemotePath, HasRefusedDir, MadeDirs, BackupsPath,
         ListsBackups, IsListed, PathOfEntry;
    if e :| e in UpdateDoomed(env, w, install, opts) && !IsRemotePath(e.path) {
      var (v, images) := Decided(env, w, install, opts).value;
      CheckUpdatesIdle(env, w, install);
      var now, b := env.wall(|v.trail|), Secured(env, v, install, opts);
      var launch := Launched(env, b.w, install, opts, images, now).value.0;
      var h := HealthCheck(env, launch);
      SecuredDirs(env, v, install, opts);
      LaunchedSameDirs(env, b.w, install, opts, images, now);
      HealthCheckIdle(env, launch);
      var i := DoomedAreBackups(env, h.w, install, now, e);
      var listing := env.remote.outcome(|h.w.trail|).listing;
      ListedThere(h.w.fs, Locate(BackupsPath(install)), listing, i);
      SecuredYear(env, v, install, opts);
      ListedDirAccepted(install, opts, now, w.fs.dirs, listing[i]);
    }
  }

  lemma ListedThere(fs: Fs, dir: Location, es: seq<Listed>, i: nat)
    requires ListsBackups(fs, dir, es) && i < |es|
    ensures IsListed(es[i]) && dir + [es[i].name] in fs.dirs
  {
    assert es[i] in es;
  }

  lemma SecuredYear(env: Env, w: World, install: string, opts: UpdateOptions)
    requires IsRemotePath(install) && Secured(env, w, install, opts).r.Ok?
    ensures opts.skipBackup || env.wall(|w.trail|).year <= 9999
  {
    hide TakeBackup, BackupDir, IsRemotePath;
    if !opts.skipBackup {
      BackupPathError(env, w, install, env.wall(|w.trail|));
    }
  }
}
