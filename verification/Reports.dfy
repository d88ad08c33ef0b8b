// What the operations hand back and leave behind besides the state file and the compose text: the
// public key, the detected system, the docker verdicts, the environment file, the deleted backups.
module Reports {
  import opened Wrappers
  import opened Text
  import opened Paths
  import opened Validators
  import opened Listing
  import opened Commands
  import opened Shell
  import opened ShellFacts
  import opened State
  import opened Render
  import opened Retention
  import opened Protocol
  import opened RunFacts
  import opened UpdateFacts
  import opened UpdateTheorems
  import opened Recovery
  import opened Lineage
  import opened PathSafety
  import opened Collection
  import opened Convergence
  import opened Progress

  // ---------------------------------------------------------------------------
  // The public key
  // ---------------------------------------------------------------------------

  /** Where the relay leaves its public key. */
  function PublicKeyFile(install: string): Location {
    Locate(install) + ["data", "id_ed25519.pub"]
  }

  lemma KeyPlace(install: string)
    ensures Locate(KeyPath(install)) == PublicKeyFile(install)
  {
    hide Locate, PathOf, KeyPath;
    HelpersNamePlaces(install, Instant(0, 1970, 1, 1, 0, 0, 0));
    FixedPlaces(install);
  }

  lemma WithKeyReads(env: Env, w: World, install: string, state: RelayState, already: bool, os: OsKind)
    ensures var t := WithKey(env, w, install, state, already, os);
            && t.r.Ok? && t.w.fs == w.fs && t.r.value.os == os
            && (t.r.value.publicKey.Some? ==> t.r.value.publicKey == At(w.fs, PublicKeyFile(install)))
  {
    hide Do, Succeeds, Locate, KeyPath, Idle;
    KeyPlace(install);
    WithKeyIdle(env, w, install, state, already, os);
    IdleSameFs(w, WithKey(env, w, install, state, already, os).w);
    var c := CatFile(KeyPath(install));
    SucceedsIsOk(env.remote, w, c);
    if ExecOk(env.remote, w, c).r.Ok? {
      CatSuccess(env.remote, w, KeyPath(install));
    }
  }

  lemma CalmKey(env: Env, w: World, install: string, state: RelayState, already: bool, os: OsKind)
    requires IsCalm(env.remote, |w.trail|) && IsRemotePath(install)
    ensures WithKey(env, w, install, state, already, os).r.Ok?
    ensures WithKey(env, w, install, state, already, os).r.value.publicKey == At(w.fs, PublicKeyFile(install))
  {
    hide Do, Succeeds, Locate, KeyPath, IsRemotePath, Accepts;
    KeyPlace(install);
    LiveAccepted(install);
    var c := CatFile(KeyPath(install));
    assert Accepts(c) by {
      CatAccepted(KeyPath(install));
    }
    SucceedsIsOk(env.remote, w, c);
    FileAt(w.fs, PublicKeyFile(install));
    if KeyLocated(w, install) {
      CalmSucceeds(env.remote, w, c);
      CatSuccess(env.remote, w, KeyPath(install));
    } else if ExecOk(env.remote, w, c).r.Ok? {
      CatSuccess(env.remote, w, KeyPath(install));
    }
  }

  lemma CatAccepted(p: string)
    requires IsRemotePath(p)
    ensures Accepts(CatFile(p))
  {
    hide IsRemotePath;
  }

  predicate KeyLocated(w: World, install: string) {
    PublicKeyFile(install) in w.fs.files
  }

  /** The key a bootstrap reports is the contents of that file, for a fresh install and an existing one;
      on a host where nothing fails it is missing exactly if the file is. */
  lemma KeyReported(env: Env, w: World, install: string, opts: BootstrapOptions)
    requires Bootstrap(env, w, install, opts).r.Ok?
    ensures var t := Bootstrap(env, w, install, opts);
            && (t.r.value.publicKey.Some? ==> t.r.value.publicKey == At(t.w.fs, PublicKeyFile(install)))
            && (IsCalm(env.remote, |w.trail|) ==> t.r.value.publicKey == At(t.w.fs, PublicKeyFile(install)))
  {
    hide Survey, Existing, Fresh, IsRemotePath, IsCalm, PublicKeyFile;
    var s := Survey(env, w, install, opts.osHint);
    SurveyAccepted(env, w, install, opts.osHint);
    SurveyIdle(env, w, install, opts.osHint);
    var (os, present) := s.r.value;
    if IsCalm(env.remote, |w.trail|) {
      CalmLater(env.remote, |w.trail|, |s.w.trail|);
    }
    if present {
      ExistingKey(env, s.w, install, os);
    } else {
      FreshKey(env, s.w, install, opts, os);
    }
  }

  lemma CalmLater(s: Schedule, from: nat, start: nat)
    requires IsCalm(s, from) && from <= start
    ensures IsCalm(s, start)
  {
  }

  lemma ExistingKey(env: Env, w: World, install: string, os: OsKind)
    requires Existing(env, w, install, os).r.Ok? && IsRemotePath(install)
    ensures var t := Existing(env, w, install, os);
            && t.r.value.os == os
            && (t.r.value.publicKey.Some? ==> t.r.value.publicKey == At(t.w.fs, PublicKeyFile(install)))
            && (IsCalm(env.remote, |w.trail|) ==> t.r.value.publicKey == At(t.w.fs, PublicKeyFile(install)))
  {
    hide ExitsZero, ReadState, WithKey, StatePath, IsRemotePath, IsCalm, PublicKeyFile, Idle;
    var e := ExitsZero(env, w, TestFileExists(StatePath(install)));
    var s := ReadState(env, e.w, install);
    WithKeyReads(env, s.w, install, s.r.value, true, os);
    if IsCalm(env.remote, |w.trail|) {
      CalmLater(env.remote, |w.trail|, |s.w.trail|);
      CalmKey(env, s.w, install, s.r.value, true, os);
    }
  }

  lemma FreshKey(env: Env, w: World, install: string, opts: BootstrapOptions, os: OsKind)
    requires Fresh(env, w, install, opts, os).r.Ok? && IsRemotePath(install)
    ensures var t := Fresh(env, w, install, opts, os);
            && t.r.value.os == os
            && (t.r.value.publicKey.Some? ==> t.r.value.publicKey == At(t.w.fs, PublicKeyFile(install)))
            && (IsCalm(env.remote, |w.trail|) ==> t.r.value.publicKey == At(t.w.fs, PublicKeyFile(install)))
  {
    hide RunAll, HealthCheck, WithKey, RenderPins, ResolvePins, InstallCommands, IsRemotePath, IsCalm, PublicKeyFile;
    var (state, compose) := Prepared(env, w, opts).value;
    var t := RunAll(env.remote, w, InstallCommands(install, compose, opts.envContents, env.toml.encode(state)));
    var h := HealthCheck(env, t.w);
    WithKeyReads(env, h.w, install, state, false, os);
    if IsCalm(env.remote, |w.trail|) {
      CalmLater(env.remote, |w.trail|, |h.w.trail|);
      CalmKey(env, h.w, install, state, false, os);
    }
  }

  // ---------------------------------------------------------------------------
  // The system and docker
  // ---------------------------------------------------------------------------

  /** The reported system is the caller's hint, or what /etc/os-release says. */
  lemma SystemReported(env: Env, w: World, install: string, opts: BootstrapOptions)
    requires Bootstrap(env, w, install, opts).r.Ok?
    ensures var os, release := Bootstrap(env, w, install, opts).r.value.os, At(w.fs, ["etc", "os-release"]);
            if opts.osHint.Some? then os == opts.osHint.value else release.Some? && env.osOf(release.value) == Some(os)
  {
    hide DetectOs, EnsureDockerStack, ExitsZero, Existing, Fresh, IsRemotePath;
    SurveyAccepted(env, w, install, opts.osHint);
    DetectReads(env, w, opts.osHint);
    var s := Survey(env, w, install, opts.osHint);
    var (os, present) := s.r.value;
    if present {
      ExistingKey(env, s.w, install, os);
    } else {
      FreshKey(env, s.w, install, opts, os);
    }
  }

  lemma ReleaseLocation()
    ensures Locate("/etc/os-release") == ["etc", "os-release"]
  {
    RootLocation();
    hide Locate;
    LocateUnder("", "etc");
    LocateUnder("/etc", "os-release");
    assert "" + "/" + "etc" == "/etc" && "/etc" + "/" + "os-release" == "/etc/os-release";
    assert [] + ["etc"] == ["etc"] && ["etc"] + ["os-release"] == ["etc", "os-release"];
  }

  lemma RootLocation()
    ensures Locate("") == []
  {
  }

  lemma DetectReads(env: Env, w: World, hint: Option<OsKind>)
    requires DetectOs(env, w, hint).r.Ok?
    ensures var os, release := DetectOs(env, w, hint).r.value, At(w.fs, ["etc", "os-release"]);
            if hint.Some? then os == hint.value else release.Some? && env.osOf(release.value) == Some(os)
  {
    hide Do, ExecOk, Locate, Succeeds;
    ReleaseLocation();
    if hint.None? {
      SucceedsIsOk(env.remote, w, ReadOsRelease);
      ReleaseSuccess(env.remote, w);
    }
  }

  lemma ReleaseSuccess(s: Schedule, w: World)
    requires Succeeds(s, w, ReadOsRelease)
    ensures At(w.fs, Locate(OS_RELEASE)) == Some(ExecOk(s, w, ReadOsRelease).r.value)
  {
    hide Locate, Do, ExecOk, Succeeds;
    SingleSuccess(s, w, ReadOsRelease);
  }

  /** The docker checks, by the exit codes of `command -v docker`, `docker compose version` and
      `docker-compose --version`, in that order and only as far as needed. */
  lemma DockerVerdict(env: Env, w: World)
    requires forall k :: |w.trail| <= k < |w.trail| + 3 ==> !env.remote.lost(k)
    ensures var n, r := |w.trail|, EnsureDockerStack(env, w).r;
            if env.remote.outcome(n).exit != 0 then r == Err(DockerEngineNotInstalled)
            else if env.remote.outcome(n + 1).exit == 0 then r == Ok(())
            else if env.remote.outcome(n + 2).exit == 0 then r == Err(DockerComposeV1Detected)
            else r == Err(DockerEngineNotInstalled)
    ensures var n, v := |w.trail|, EnsureDockerStack(env, w).w;
            && w.trail <= v.trail && |v.trail| > n && v.trail[n].prim == DockerPresent
            && (env.remote.outcome(n).exit == 0 ==> |v.trail| > n + 1 && v.trail[n + 1].prim == ComposeV2)
            && (env.remote.outcome(n).exit == 0 && env.remote.outcome(n + 1).exit != 0 ==>
                  |v.trail| > n + 2 && v.trail[n + 2].prim == ComposeV1)
  {
    hide Do;
    ReportStep(env.remote, w, CheckDockerPresent, DockerPresent);
    var d := Do(env.remote, w, CheckDockerPresent);
    ReportStep(env.remote, d.w, CheckComposeV2, ComposeV2);
    var v := Do(env.remote, d.w, CheckComposeV2);
    ReportStep(env.remote, v.w, CheckComposeV1, ComposeV1);
  }

  lemma ReportStep(s: Schedule, w: World, c: Cmd, prim: Prim)
    requires c.CheckDockerPresent? || c.CheckComposeV2? || c.CheckComposeV1?
    requires Script(c) == [prim] && !s.lost(|w.trail|)
    ensures var t, o := Do(s, w, c), s.outcome(|w.trail|);
            && t.r.Ok? && t.r.value.code == o.exit
            && w.trail <= t.w.trail && |t.w.trail| == |w.trail| + 1 && t.w.trail[|w.trail|].prim == prim
  {
  }

  // ---------------------------------------------------------------------------
  // A fresh install
  // ---------------------------------------------------------------------------

  /** What a fresh bootstrap prepares: one pin for each service, in order, of the one repository and tag,
      with the digest the registry gives, and a state that was never updated. */
  lemma PreparedSpelled(env: Env, w: World, opts: BootstrapOptions)
    requires Prepared(env, w, opts).Some?
    ensures var (state, compose) := Prepared(env, w, opts).value;
            var now := env.wall(|w.trail|);
            && state.install == InstallMetadata(now, opts.version, None)
            && |state.images| == |opts.services|
            && (forall i :: 0 <= i < |opts.services| ==>
                  && state.images[i] == ImagePin(opts.services[i], opts.repo, opts.tag, state.images[i].digest, now)
                  && env.registry.digest(|w.trail|, i, opts.repo, opts.tag) == Some(state.images[i].digest))
            && RenderPins(opts.template, state.images) == Ok(compose)
  {
    hide RenderPins;
    FreshPins(env, |w.trail|, opts, env.wall(|w.trail|), 0);
    var (state, _) := Prepared(env, w, opts).value;
    forall i | 0 <= i < |opts.services|
      ensures state.images[i] == ImagePin(opts.services[i], opts.repo, opts.tag, state.images[i].digest, env.wall(|w.trail|))
      ensures env.registry.digest(|w.trail|, i, opts.repo, opts.tag) == Some(state.images[i].digest)
    {
      assert state.images[i - 0] == state.images[i];
    }
  }

  /** After a successful fresh install the environment file is the caller's, and the data and backups
      directories are there. */
  lemma FreshLeaves(env: Env, w: World, install: string, opts: BootstrapOptions, os: OsKind)
    requires Fresh(env, w, install, opts, os).r.Ok?
    ensures var v := Fresh(env, w, install, opts, os).w;
            && At(v.fs, Locate(install) + [".env"]) == Some(opts.envContents)
            && {Locate(install), Locate(install) + ["data"], Locate(install) + ["backups"]} <= v.fs.dirs
  {
    hide RunAll, HealthCheck, WithKey, RenderPins, ResolvePins, InstallCommands, Locate, Idle;
    var (state, compose) := Prepared(env, w, opts).value;
    var cs := InstallCommands(install, compose, opts.envContents, env.toml.encode(state));
    var t := RunAll(env.remote, w, cs);
    InstallLeaves(env.remote, w, install, compose, opts.envContents, env.toml.encode(state));
    HealthCheckIdle(env, t.w);
    IdleSameFs(t.w, HealthCheck(env, t.w).w);
    WithKeyReads(env, HealthCheck(env, t.w).w, install, state, false, os);
  }

  lemma FixedLocations(install: string)
    ensures PlaceOf(install, Place.Env) == Locate(install) + [".env"]
    ensures Locate(DataPath(install)) == Locate(install) + ["data"]
    ensures Locate(BackupsPath(install)) == Locate(install) + ["backups"]
  {
    hide Locate;
    PlaceLocation(install, Place.Env, false);
    LocateJoin(install, "data");
    LocateJoin(install, "backups");
    assert ".env" + "" == ".env" && Locate(install) + [] == Locate(install);
  }

  lemma InstallLeaves(s: Schedule, w: World, install: string, compose: Bytes, envText: Bytes, state: Bytes)
    requires RunAll(s, w, InstallCommands(install, compose, envText, state)).r.Ok?
    ensures var v := RunAll(s, w, InstallCommands(install, compose, envText, state)).w;
            && At(v.fs, Locate(install) + [".env"]) == Some(envText)
            && {Locate(install), Locate(install) + ["data"], Locate(install) + ["backups"]} <= v.fs.dirs
  {
    hide RunAll, ExecOk, Succeeds, Locate, PathOf, ComposePath, EnvPath, StatePath, DataPath, BackupsPath;
    FixedLocations(install);
    InstallRemovesNothing(install, compose, envText, state);
    var c0, c1, c2 := MkdirP(install), MkdirP(DataPath(install)), MkdirP(BackupsPath(install));
    var rest := WritingCommands(install, compose, envText, state);
    assert InstallCommands(install, compose, envText, state) == [c0] + ([c1] + ([c2] + rest));
    hide InstallCommands, WritingCommands;
    RunAllFirstStep(s, w, c0, [c1] + ([c2] + rest));
    var w1 := ExecOk(s, w, c0).w;
    MkdirSuccess(s, w, install);
    RunAllDir(s, w1, [c1] + ([c2] + rest), Locate(install));
    RunAllFirstStep(s, w1, c1, [c2] + rest);
    var w2 := ExecOk(s, w1, c1).w;
    MkdirSuccess(s, w1, DataPath(install));
    RunAllDir(s, w2, [c2] + rest, Locate(install) + ["data"]);
    RunAllFirstStep(s, w2, c2, rest);
    var w3 := ExecOk(s, w2, c2).w;
    MkdirSuccess(s, w2, BackupsPath(install));
    RunAllDir(s, w3, rest, Locate(install) + ["backups"]);
    WritingLeaves(s, w3, install, compose, envText, state);
  }

  lemma QuietFile(w: World, v: World, l: Location)
    requires Quiet(w, v, l)
    ensures At(v.fs, l) == At(w.fs, l)
  {
  }

  lemma WritingLeaves(s: Schedule, w: World, install: string, compose: Bytes, envText: Bytes, state: Bytes)
    requires RunAll(s, w, WritingCommands(install, compose, envText, state)).r.Ok?
    ensures At(RunAll(s, w, WritingCommands(install, compose, envText, state)).w.fs, PlaceOf(install, Place.Env)) == Some(envText)
  {
    hide ExecOk, PathOf, PlaceOf, RunAll, Succeeds, ComposePath, EnvPath, StatePath, MayChange, Quiet;
    HelpersNamePlaces(install, Instant(0, 1970, 1, 1, 0, 0, 0));
    var c0, c1 := WriteFile(ComposePath(install), compose), WriteFile(EnvPath(install), envText);
    var rest := [WriteFile(StatePath(install), state), ComposeUp(install)];
    assert WritingCommands(install, compose, envText, state) == [c0] + ([c1] + rest);
    hide WritingCommands;
    RunAllFirstStep(s, w, c0, [c1] + rest);
    var w1 := ExecOk(s, w, c0).w;
    RunAllFirstStep(s, w1, c1, rest);
    WritePlaces(s, w1, install, Place.Env, envText, Compose);
    var w2 := ExecOk(s, w1, c1).w;
    WriteChanges(install, State, state, Place.Env);
    UpChanges(install, Place.Env);
    RunAllQuiet(s, w2, rest, PlaceOf(install, Place.Env));
    QuietFile(w2, RunAll(s, w2, rest).w, PlaceOf(install, Place.Env));
  }

  // ---------------------------------------------------------------------------
  // The deleted backups
  // ---------------------------------------------------------------------------

  /** The reported deletions, read off the listing: the directories older than seven days that at least
      three others precede, newest first and in listing order at equal times. */
  ghost predicate IsCollected(install: string, listing: seq<Listed>, now: DateTime, deleted: seq<string>) {
    var es := Entries(BackupsPath(install), listing);
    && (forall p :: p in deleted <==> exists i :: 0 <= i < |es| && IsOutdated(es, i, now, p))
    && |deleted| <= |es|
    && forall j :: 0 <= j < |deleted| ==> IsRanked(es, deleted[j], |es| - |deleted| + j)
  }

  predicate IsOutdated(es: seq<Entry>, i: nat, now: DateTime, p: string)
    requires i < |es|
  {
    es[i].path == p && es[i].epoch < now.epoch - 7 * 24 * 3600 && Rank(es, i) >= 3
  }

  /** An entry of this path and rank is there. */
  predicate IsRanked(es: seq<Entry>, p: string, rank: int) {
    exists i :: 0 <= i < |es| && es[i].path == p && Rank(es, i) == rank
  }

  lemma {:induction false} PathsOf(es: seq<Entry>)
    ensures |EntryPaths(es)| == |es| && forall j :: 0 <= j < |es| ==> EntryPaths(es)[j] == es[j].path
  {
    if es != [] {
      PathsOf(es[1..]);
    }
  }

  lemma PlanMembers(es: seq<Entry>, now: DateTime, p: string)
    ensures p in EntryPaths(Doomed(es, now.epoch - RETENTION_SECONDS)) <==>
            exists i :: 0 <= i < |es| && IsOutdated(es, i, now, p)
  {
    hide Doomed, Rank;
    var cutoff := now.epoch - RETENTION_SECONDS;
    var doomed := Doomed(es, cutoff);
    var deleted := EntryPaths(doomed);
    PathsOf(doomed);
    if p in deleted {
      var j :| 0 <= j < |deleted| && deleted[j] == p;
      DoomedByRank(es, cutoff, doomed[j]);
      var i :| 0 <= i < |es| && es[i] == doomed[j] && doomed[j].epoch < cutoff && Rank(es, i) >= 3;
      assert IsOutdated(es, i, now, p);
    }
    if i :| 0 <= i < |es| && IsOutdated(es, i, now, p) {
      DoomedByRank(es, cutoff, es[i]);
      var j :| 0 <= j < |doomed| && doomed[j] == es[i];
      assert deleted[j] == p;
    }
  }

  lemma PlanIsCollected(install: string, listing: seq<Listed>, now: DateTime)
    ensures IsCollected(install, listing, now,
                        EntryPaths(Doomed(Entries(BackupsPath(install), listing), now.epoch - RETENTION_SECONDS)))
  {
    hide Doomed, Rank, BackupsPath, IsOutdated, SortNewestFirst, EntryPaths, Kept, SplitsAt;
    var es, cutoff := Entries(BackupsPath(install), listing), now.epoch - RETENTION_SECONDS;
    var doomed := Doomed(es, cutoff);
    var deleted := EntryPaths(doomed);
    PathsOf(doomed);
    forall p
      ensures p in deleted <==> exists i :: 0 <= i < |es| && IsOutdated(es, i, now, p)
    {
      PlanMembers(es, now, p);
    }
    RetentionPlan(es, cutoff);
    SortFacts(es);
    forall j | 0 <= j < |deleted|
      ensures IsRanked(es, deleted[j], |es| - |deleted| + j)
    {
      var i := DoomedInOrder(es, cutoff, j);
    }
  }

  /** What a changing update reports as deleted: nothing if its collector got no listing, and otherwise
      just what the rule says of the listing it read. */
  lemma DeletionsReported(env: Env, w: World, install: string, opts: UpdateOptions)
    requires Update(env, w, install, opts).r.Ok? && Update(env, w, install, opts).r.value.changed
    ensures Decided(env, w, install, opts).Some?
    ensures var (v, images) := Decided(env, w, install, opts).value;
            var listing := ReplaceListing(env, v, install, opts, images);
            var deleted := Update(env, w, install, opts).r.value.gcDeleted;
            if listing.None? then deleted == [] else IsCollected(install, listing.value, env.wall(|v.trail|), deleted)
  {
    hide CheckUpdates, LoadState, Replace, IsCollected, ReplaceListing;
    var (v, images) := Decided(env, w, install, opts).value;
    ReplaceDeletions(env, v, install, opts, images);
  }

  lemma ReplaceDeletions(env: Env, w: World, install: string, opts: UpdateOptions, images: seq<ImageUpdate>)
    requires Replace(env, w, install, opts, images).r.Ok?
    ensures var listing := ReplaceListing(env, w, install, opts, images);
            var deleted := Replace(env, w, install, opts, images).r.value.gcDeleted;
            if listing.None? then deleted == [] else IsCollected(install, listing.value, env.wall(|w.trail|), deleted)
  {
    hide TakeBackup, Deploy, BackupDir, DeployListing, IsCollected;
    var now, b := env.wall(|w.trail|), Secured(env, w, install, opts);
    var dir := if opts.skipBackup then None else Some(BackupDir(install, now));
    DeployDeletions(env, b.w, install, opts, images, now, dir);
  }

  lemma DeployDeletions(env: Env, w: World, install: string, opts: UpdateOptions, images: seq<ImageUpdate>, now: DateTime,
                        dir: Option<string>)
    requires Deploy(env, w, install, opts, images, now, dir).r.Ok?
    ensures var listing, deleted := DeployListing(env, w, install, opts, images, now),
                                    Deploy(env, w, install, opts, images, now, dir).r.value.gcDeleted;
            if listing.None? then deleted == [] else IsCollected(install, listing.value, now, deleted)
  {
    hide Deploy, Settle, Launched, SettleListing, IsCollected;
    DeploySettles(env, w, install, opts, images, now, dir);
    var (v, newState, _) := Launched(env, w, install, opts, images, now).value;
    SettleDeletions(env, v, install, now, dir, newState);
  }

  lemma SettleDeletions(env: Env, w: World, install: string, now: DateTime, dir: Option<string>, newState: RelayState)
    requires Settle(env, w, install, now, dir, newState).r.Ok?
    ensures var listing, deleted := SettleListing(env, w, install), Settle(env, w, install, now, dir, newState).r.value.gcDeleted;
            if listing.None? then deleted == [] else IsCollected(install, listing.value, now, deleted)
  {
    hide HealthCheck, GcBackups, GcDoomed, Rollback, Do, BackupsPath, IsCollected, Doomed;
    var h := HealthCheck(env, w);
    GcExact(env, h.w, install, now);
    if IsListingRead(env, h.w, install) {
      PlanIsCollected(install, env.remote.outcome(|h.w.trail|).listing, now);
    } else {
      UnreadListing(env, h.w, install, now);
    }
  }
}
