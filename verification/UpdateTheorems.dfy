// The main results about `update`, for every schedule of failures.
module UpdateTheorems {
  import opened Wrappers
  import opened Text
  import opened Paths
  import opened Validators
  import opened Listing
  import opened Commands
  import opened Shell
  import opened ShellFacts
  import opened State
  import opened Render
  import opened Retention
  import opened Protocol
  import opened RunFacts
  import opened UpdateFacts
  import Comp = Compose
  import Coverage

  // ---------------------------------------------------------------------------
  // Which errors the phases can return
  // ---------------------------------------------------------------------------

  predicate IsReadError(e: Error) {
    IsTransportError(e) || e.RelayNotInstalled? || e.ConfigParse?
  }

  lemma DoErrors(s: Schedule, w: World, c: Cmd)
    ensures Do(s, w, c).r.Err? ==> IsTransportError(Do(s, w, c).r.error)
  {
    hide Accepts, RunScript;
  }

  lemma LoadStateErrors(env: Env, w: World, install: string)
    ensures LoadState(env, w, install).r.Err? ==> IsReadError(LoadState(env, w, install).r.error)
  {
    hide Do;
    var c := TestFileExists(StatePath(install));
    DoErrors(env.remote, w, c);
    DoErrors(env.remote, Do(env.remote, w, c).w, CatFile(StatePath(install)));
  }

  lemma {:induction false} CheckPinsErrors(env: Env, at: nat, pins: seq<ImagePin>, i: nat)
    requires i <= |pins|
    ensures CheckPins(env, at, pins, i).Err? ==> CheckPins(env, at, pins, i).error == RegistryApi
    decreases |pins| - i
  {
    if i < |pins| {
      CheckPinsErrors(env, at, pins, i + 1);
    }
  }

  lemma CheckUpdatesErrors(env: Env, w: World, install: string)
    ensures var r := CheckUpdates(env, w, install).r; r.Err? ==> IsReadError(r.error) || r.error == RegistryApi
  {
    hide LoadState;
    LoadStateErrors(env, w, install);
    var s := LoadState(env, w, install);
    if s.r.Ok? {
      CheckPinsErrors(env, |s.w.trail|, s.r.value.images, 0);
    }
  }

  lemma {:induction false} DeleteAllErrors(env: Env, w: World, doomed: seq<Entry>, deleted: seq<string>)
    ensures var r := DeleteAll(env, w, doomed, deleted).r; r.Err? ==> IsTransportError(r.error)
    decreases |doomed|
  {
    hide Do;
    if doomed != [] {
      var c := RemoveTree(doomed[0].path);
      DoErrors(env.remote, w, c);
      DeleteAllErrors(env, ExecOk(env.remote, w, c).w, doomed[1..], deleted + [doomed[0].path]);
    }
  }

  lemma GcErrors(env: Env, w: World, install: string, now: DateTime)
    ensures var r := GcBackups(env, w, install, now).r; r.Err? ==> IsTransportError(r.error)
  {
    hide Do, ParseListing, Doomed, DeleteAll, BackupsPath, IsTransportError;
    var c := FindBackups(BackupsPath(install));
    var t := Do(env.remote, w, c);
    DoErrors(env.remote, w, c);
    if t.r.Ok? && t.r.value.code == 0 {
      DeleteAllErrors(env, t.w, Doomed(ParseListing(t.r.value.stdout), now.epoch - RETENTION_SECONDS), []);
    }
  }

  lemma TakeBackupErrors(env: Env, w: World, install: string, dir: string)
    ensures var r := TakeBackup(env, w, install, dir).r; r.Err? ==> IsTransportError(r.error)
  {
    hide Do, RunAll;
    var cs := BackupCommands(install, dir);
    RunAllErrors(env.remote, w, cs);
    var t := RunAll(env.remote, w, cs);
    DoErrors(env.remote, t.w, ComposeConfig(install));
    var c := Do(env.remote, t.w, ComposeConfig(install));
    if c.r.Ok? {
      RunAllErrors(env.remote, c.w, [WriteFile(PosixJoin(dir, CONFIG_FILE), c.r.value.stdout)]);
    }
  }

  // ---------------------------------------------------------------------------
  // A failed health check puts the old version back
  // ---------------------------------------------------------------------------

  /** The live files and the running stack are those of compose text `compose` and state `state`. */
  predicate Runs(w: World, install: string, compose: Option<Bytes>, state: Option<Bytes>) {
    && At(w.fs, PlaceOf(install, Compose)) == compose
    && At(w.fs, PlaceOf(install, State)) == state
    && w.running == compose
  }

  lemma UpPlaces(s: Schedule, w: World, install: string)
    requires Succeeds(s, w, ComposeUp(install))
    ensures var v := ExecOk(s, w, ComposeUp(install)).w;
            Runs(v, install, At(w.fs, PlaceOf(install, Compose)), At(w.fs, PlaceOf(install, State)))
  {
    hide Do, PathOf, MayChange, Succeeds;
    UpSuccess(s, w, install);
    FixedPlaces(install);
    UpChanges(install, Compose);
    UpChanges(install, State);
    DoQuiet(s, w, ComposeUp(install), PlaceOf(install, Compose));
    DoQuiet(s, w, ComposeUp(install), PlaceOf(install, State));
  }

  lemma RestoreHolds(s: Schedule, w: World, install: string, at: DateTime)
    requires RunAll(s, w, RestoreCommands(install, BackupDir(install, at))).r.Ok?
    ensures Runs(RunAll(s, w, RestoreCommands(install, BackupDir(install, at))).w, install,
                 At(w.fs, PlaceOf(install, SavedCompose(at))), At(w.fs, PlaceOf(install, SavedState(at))))
  {
    hide ExecOk, PathOf, PlaceOf, RunAll, Succeeds;
    BackupPaths(install, at);
    var cs := RestoreCommands(install, BackupDir(install, at));
    assert cs[1..] == [cs[1], cs[2]] && [cs[1], cs[2]][1..] == [cs[2]] && [cs[2]][1..] == [];
    RunAllStep(s, w, cs);
    var w1 := ExecOk(s, w, cs[0]).w;
    CopyPlaces(s, w, install, SavedCompose(at), Compose, SavedState(at));
    RunAllStep(s, w1, [cs[1], cs[2]]);
    var w2 := ExecOk(s, w1, cs[1]).w;
    CopyPlaces(s, w1, install, SavedState(at), State, Compose);
    RunAllStep(s, w2, [cs[2]]);
    UpPlaces(s, w2, install);
    RunAllNone(s, ExecOk(s, w2, cs[2]).w);
  }

  /** A settled update that reports a failed health check has restored what the backup held. */
  lemma SettleRestores(env: Env, w: World, install: string, now: DateTime, at: DateTime, newState: RelayState)
    requires Settle(env, w, install, now, Some(BackupDir(install, at)), newState).r == Err(RelayHealthCheckFailed)
    ensures Runs(Settle(env, w, install, now, Some(BackupDir(install, at)), newState).w, install,
                 At(w.fs, PlaceOf(install, SavedCompose(at))), At(w.fs, PlaceOf(install, SavedState(at))))
  {
    hide HealthCheck, RunAll, GcBackups, PlaceOf, BackupDir;
    var h := HealthCheck(env, w);
    HealthCheckIdle(env, w);
    GcErrors(env, h.w, install, now);
    var cs := RestoreCommands(install, BackupDir(install, at));
    RunAllErrors(env.remote, h.w, cs);
    var t := RunAll(env.remote, h.w, cs);
    RestoreHolds(env.remote, h.w, install, at);
    HealthCheckIdle(env, t.w);
  }

  lemma DeployCommandsQuiet(s: Schedule, w: World, install: string, compose: Bytes, state: Bytes, p: Place)
    requires !p.Compose? && !p.State? && !p.Key?
    ensures Quiet(w, RunAll(s, w, DeployCommands(install, compose, state)).w, PlaceOf(install, p))
  {
    hide PlaceOf, MayChange, RunAll, PathOf, ComposePath, StatePath, SamePlace;
    HelpersNamePlaces(install, Instant(0, 1970, 1, 1, 0, 0, 0));
    assert !SamePlace(p, Compose) && !SamePlace(p, State) by {
      OtherThanLive(p);
    }
    var l, cs := PlaceOf(install, p), DeployCommands(install, compose, state);
    WriteChanges(install, Compose, compose, p);
    WriteChanges(install, State, state, p);
    UpChanges(install, p);
    PullChangesNothing(install, l);
    RunAllQuiet(s, w, cs, l);
  }

  lemma OtherThanLive(p: Place)
    requires !p.Compose? && !p.State?
    ensures !SamePlace(p, Compose) && !SamePlace(p, State)
  {
  }

  lemma PullChangesNothing(path: string, l: Location)
    ensures !MayChange(ComposePull(path), l)
  {
  }

  /** The world in which an update that got as far as `up` starts to settle. */
  function Launched(env: Env, w: World, install: string, opts: UpdateOptions, images: seq<ImageUpdate>, now: DateTime)
    : Option<(World, RelayState, Bytes)>
  {
    var l := LoadState(env, w, install);
    if l.r.Err? then None
    else
      var newState := ApplyUpdate(l.r.value, PinsOf(images, now), now);
      var compose := RenderPins(opts.template, PinsOf(images, now));
      if compose.Err? then None
      else
        var t := RunAll(env.remote, l.w, DeployCommands(install, compose.value, env.toml.encode(newState)));
        if t.r.Err? then None else Some((t.w, newState, compose.value))
  }

  predicate IsEarlyError(e: Error) {
    IsReadError(e) || e.InvalidImageRef? || e.RegistryApi?
  }

  lemma RenderErrors(template: Bytes, pins: seq<ImagePin>)
    ensures RenderPins(template, pins).Err? ==> RenderPins(template, pins).error.InvalidImageRef?
  {
    RenderFromErrors(template, pins, {});
  }

  lemma {:induction false} RenderFromErrors(out: Bytes, pins: seq<ImagePin>, seen: set<Comp.Key>)
    ensures RenderFrom(out, pins, seen).Err? ==> RenderFrom(out, pins, seen).error.InvalidImageRef?
    decreases |pins|
  {
    if pins != [] {
      var k := Comp.KeyOf(pins[0]);
      if k in seen {
        RenderFromErrors(out, pins[1..], seen);
      } else if PinnedImageRef(k.repo, k.tag, k.digest).Ok? {
        RenderFromErrors(InsertBytes(out, k), pins[1..], seen + {k});
      }
    }
  }

  /** A deployment either fails early or is the settling of the world it launched. */
  lemma DeploySettles(env: Env, w: World, install: string, opts: UpdateOptions, images: seq<ImageUpdate>, now: DateTime,
                      dir: Option<string>)
    ensures var d := Deploy(env, w, install, opts, images, now, dir);
            match Launched(env, w, install, opts, images, now)
            case None => d.r.Err? && IsEarlyError(d.r.error)
            case Some((v, newState, _)) => d == Settle(env, v, install, now, dir, newState)
  {
    hide LoadState, RunAll, RenderPins, Settle, DeployCommands;
    LoadStateErrors(env, w, install);
    var l := LoadState(env, w, install);
    if l.r.Ok? {
      var newState := ApplyUpdate(l.r.value, PinsOf(images, now), now);
      var compose := RenderPins(opts.template, PinsOf(images, now));
      RenderErrors(opts.template, PinsOf(images, now));
      if compose.Ok? {
        RunAllErrors(env.remote, l.w, DeployCommands(install, compose.value, env.toml.encode(newState)));
      }
    }
  }

  lemma LaunchedQuiet(env: Env, w: World, install: string, opts: UpdateOptions, images: seq<ImageUpdate>, now: DateTime,
                      p: Place)
    requires !p.Compose? && !p.State? && !p.Key?
    requires Launched(env, w, install, opts, images, now).Some?
    ensures Quiet(w, Launched(env, w, install, opts, images, now).value.0, PlaceOf(install, p))
  {
    hide LoadState, RunAll, RenderPins, DeployCommands, PlaceOf;
    var l := LoadState(env, w, install);
    LoadStateIdle(env, w, install);
    IdleIsQuiet(w, l.w, PlaceOf(install, p));
    var newState := ApplyUpdate(l.r.value, PinsOf(images, now), now);
    var compose := RenderPins(opts.template, PinsOf(images, now)).value;
    DeployCommandsQuiet(env.remote, l.w, install, compose, env.toml.encode(newState), p);
    QuietTransitive(w, l.w, Launched(env, w, install, opts, images, now).value.0, PlaceOf(install, p));
  }

  /** Rollback: an update with a backup that reports a failed health check leaves the live compose
      and state files as they were, with the last successful `up` run on the old compose text. That is
      the text that was running before exactly if the old compose file was. */
  lemma RollbackRestores(env: Env, w: World, install: string, opts: UpdateOptions)
    requires !opts.skipBackup && Update(env, w, install, opts).r == Err(RelayHealthCheckFailed)
    ensures At(w.fs, PlaceOf(install, Compose)).Some? && At(w.fs, PlaceOf(install, State)).Some?
    ensures Runs(Update(env, w, install, opts).w, install,
                 At(w.fs, PlaceOf(install, Compose)), At(w.fs, PlaceOf(install, State)))
    ensures Update(env, w, install, opts).w.running == w.running <==> w.running == At(w.fs, PlaceOf(install, Compose))
  {
    hide CheckUpdates, LoadState, TakeBackup, Deploy, BackupDir, PlaceOf;
    CheckUpdatesErrors(env, w, install);
    CheckUpdatesIdle(env, w, install);
    var c := CheckUpdates(env, w, install);
    LoadStateErrors(env, c.w, install);
    var images, now := c.r.value, env.wall(|c.w.trail|);
    ReplaceRestores(env, c.w, install, opts, images);
  }

  lemma ReplaceRestores(env: Env, w: World, install: string, opts: UpdateOptions, images: seq<ImageUpdate>)
    requires !opts.skipBackup && Replace(env, w, install, opts, images).r == Err(RelayHealthCheckFailed)
    ensures At(w.fs, PlaceOf(install, Compose)).Some? && At(w.fs, PlaceOf(install, State)).Some?
    ensures Runs(Replace(env, w, install, opts, images).w, install,
                 At(w.fs, PlaceOf(install, Compose)), At(w.fs, PlaceOf(install, State)))
  {
    hide TakeBackup, Deploy, BackupDir, PlaceOf, Launched, Settle;
    var at := env.wall(|w.trail|);
    var dir := BackupDir(install, at);
    TakeBackupErrors(env, w, install, dir);
    var b := TakeBackup(env, w, install, dir);
    BackupTaken(env, w, install, at);
    DeploySettles(env, b.w, install, opts, images, at, Some(dir));
    var launched := Launched(env, b.w, install, opts, images, at);
    LaunchedQuiet(env, b.w, install, opts, images, at, SavedCompose(at));
    LaunchedQuiet(env, b.w, install, opts, images, at, SavedState(at));
    SettleRestores(env, launched.value.0, install, at, at, launched.value.1);
  }

  lemma BackupTaken(env: Env, w: World, install: string, at: DateTime)
    requires TakeBackup(env, w, install, BackupDir(install, at)).r.Ok?
    ensures At(w.fs, PlaceOf(install, Compose)).Some? && At(w.fs, PlaceOf(install, State)).Some?
    ensures var v := TakeBackup(env, w, install, BackupDir(install, at)).w;
            && At(v.fs, PlaceOf(install, SavedCompose(at))) == At(w.fs, PlaceOf(install, Compose))
            && At(v.fs, PlaceOf(install, SavedState(at))) == At(w.fs, PlaceOf(install, State))
  {
    hide RunAll, SaveConfig, BackupDir, PlaceOf, BackupCommands;
    BackupHolds(env.remote, w, install, at);
    var t := RunAll(env.remote, w, BackupCommands(install, BackupDir(install, at)));
    SaveConfigQuiet(env, t.w, install, at, SavedCompose(at));
    SaveConfigQuiet(env, t.w, install, at, SavedState(at));
  }

  // ---------------------------------------------------------------------------
  // Success
  // ---------------------------------------------------------------------------

  lemma WritePlaces(s: Schedule, w: World, install: string, q: Place, content: Bytes, p: Place)
    requires Succeeds(s, w, WriteFile(PathOf(install, q, false), content))
    ensures var v := ExecOk(s, w, WriteFile(PathOf(install, q, false), content)).w;
            && At(v.fs, PlaceOf(install, q)) == Some(content)
            && (!SamePlace(p, q) ==> At(v.fs, PlaceOf(install, p)) == At(w.fs, PlaceOf(install, p)))
  {
    hide Do, PathOf, SamePlace, MayChange, Succeeds;
    WriteIsAtomic(s, w, PathOf(install, q, false), content);
    if !SamePlace(p, q) {
      WriteChanges(install, q, content, p);
      DoQuiet(s, w, WriteFile(PathOf(install, q, false), content), PlaceOf(install, p));
    }
  }

  lemma PullLeaves(s: Schedule, w: World, install: string)
    ensures ExecOk(s, w, ComposePull(install)).w.fs == w.fs
  {
    hide Do;
    DoIdle(s, w, ComposePull(install));
  }

  lemma DeployHolds(s: Schedule, w: World, install: string, compose: Bytes, state: Bytes)
    requires RunAll(s, w, DeployCommands(install, compose, state)).r.Ok?
    ensures Runs(RunAll(s, w, DeployCommands(install, compose, state)).w, install, Some(compose), Some(state))
  {
    hide ExecOk, PathOf, PlaceOf, RunAll, Succeeds;
    HelpersNamePlaces(install, Instant(0, 1970, 1, 1, 0, 0, 0));
    var cs := DeployCommands(install, compose, state);
    var c0, c1, c2, c3 := cs[0], cs[1], cs[2], cs[3];
    assert cs[1..] == [c1, c2, c3] && [c1, c2, c3][1..] == [c2, c3] && [c2, c3][1..] == [c3] && [c3][1..] == [];
    RunAllStep(s, w, cs);
    WritePlaces(s, w, install, Compose, compose, State);
    var w1 := ExecOk(s, w, c0).w;
    RunAllStep(s, w1, [c1, c2, c3]);
    WritePlaces(s, w1, install, State, state, Compose);
    var w2 := ExecOk(s, w1, c1).w;
    RunAllStep(s, w2, [c2, c3]);
    PullLeaves(s, w2, install);
    var w3 := ExecOk(s, w2, c2).w;
    RunAllStep(s, w3, [c3]);
    UpPlaces(s, w3, install);
    RunAllNone(s, ExecOk(s, w3, c3).w);
  }

  /** One full round: both ports answered, in order, as the last thing that happened. */
  predicate EndsHealthy(trail: seq<Event>) {
    && |trail| >= 2
    && trail[|trail| - 2].prim == Probe(HBBS_PORT) && trail[|trail| - 2].code == 0
    && trail[|trail| - 1].prim == Probe(HBBR_PORT) && trail[|trail| - 1].code == 0
  }

  lemma ProbeEvent(s: Schedule, w: World, port: Port)
    requires var t := Do(s, w, TcpProbe(port)); t.r.Ok? && t.r.value.code == 0
    ensures var v := Do(s, w, TcpProbe(port)).w;
            && |v.trail| == |w.trail| + 1 && v.trail[..|w.trail|] == w.trail
            && v.trail[|w.trail|].prim == Probe(port) && v.trail[|w.trail|].code == 0
  {
    SingleSuccess(s, w, TcpProbe(port));
  }

  lemma RoundEndsHealthy(env: Env, w: World)
    requires ProbeRound(env, w, [HBBS_PORT, HBBR_PORT]).r == Ok(true)
    ensures var v := ProbeRound(env, w, [HBBS_PORT, HBBR_PORT]).w; EndsHealthy(v.trail) && |v.trail| == |w.trail| + 2
  {
    hide Do;
    var ports := [HBBS_PORT, HBBR_PORT];
    assert ports[1..] == [HBBR_PORT] && [HBBR_PORT][1..] == [];
    var t := Do(env.remote, w, TcpProbe(HBBS_PORT));
    ProbeEvent(env.remote, w, HBBS_PORT);
    var u := Do(env.remote, t.w, TcpProbe(HBBR_PORT));
    assert ProbeRound(env, w, ports) == ProbeRound(env, t.w, [HBBR_PORT]);
    ProbeEvent(env.remote, t.w, HBBR_PORT);
    assert ProbeRound(env, t.w, [HBBR_PORT]) == ProbeRound(env, u.w, []);
    var n := |t.w.trail|;
    assert u.w.trail[n - 1] == u.w.trail[..n][n - 1] == t.w.trail[n - 1];
  }

  /** A health check passes only on one single round of its own in which every port answered. */
  lemma {:induction false} HealthyMeansOneRound(env: Env, w: World, deadline: int)
    requires HealthLoop(env, w, deadline).r.Ok?
    ensures var v := HealthLoop(env, w, deadline).w; EndsHealthy(v.trail) && |w.trail| + 2 <= |v.trail|
    decreases deadline - w.clock
  {
    hide ProbeRound;
    var t := ProbeRound(env, w, [HBBS_PORT, HBBR_PORT]);
    if t.r == Ok(true) {
      RoundEndsHealthy(env, w);
    } else {
      HealthyMeansOneRound(env, Sleep(env, t.w), deadline);
    }
  }

  predicate OnlyCollects(w: World, v: World) {
    w.trail <= v.trail && v.running == w.running
    && forall i :: |w.trail| <= i < |v.trail| ==> v.trail[i].prim.Find? || v.trail[i].prim.Remove?
  }

  lemma CollectStep(s: Schedule, w: World, c: Cmd)
    requires c.FindBackups? || c.RemoveTree?
    ensures OnlyCollects(w, Do(s, w, c).w)
  {
    hide Accepts, Look;
    if Accepts(c) {
      assert |Script(c)| == 1;
    }
  }

  lemma CollectsTransitive(u: World, v: World, w: World)
    requires OnlyCollects(u, v) && OnlyCollects(v, w)
    ensures OnlyCollects(u, w)
  {
    forall i | |u.trail| <= i < |w.trail|
      ensures w.trail[i].prim.Find? || w.trail[i].prim.Remove?
    {
      if i < |v.trail| {
        assert w.trail[i] == v.trail[i];
      }
    }
  }

  lemma {:induction false} DeleteAllCollects(env: Env, w: World, doomed: seq<Entry>, deleted: seq<string>)
    ensures OnlyCollects(w, DeleteAll(env, w, doomed, deleted).w)
    decreases |doomed|
  {
    hide Do;
    if doomed != [] {
      var c := RemoveTree(doomed[0].path);
      CollectStep(env.remote, w, c);
      var t := ExecOk(env.remote, w, c);
      if t.r.Ok? {
        DeleteAllCollects(env, t.w, doomed[1..], deleted + [doomed[0].path]);
        CollectsTransitive(w, t.w, DeleteAll(env, t.w, doomed[1..], deleted + [doomed[0].path]).w);
      }
    }
  }

  lemma GcCollects(env: Env, w: World, install: string, now: DateTime)
    ensures OnlyCollects(w, GcBackups(env, w, install, now).w)
  {
    hide Do, ParseListing, Doomed, DeleteAll, BackupsPath;
    var c := FindBackups(BackupsPath(install));
    CollectStep(env.remote, w, c);
    var t := Do(env.remote, w, c);
    if t.r.Ok? && t.r.value.code == 0 {
      var doomed := Doomed(ParseListing(t.r.value.stdout), now.epoch - RETENTION_SECONDS);
      DeleteAllCollects(env, t.w, doomed, []);
      CollectsTransitive(w, t.w, DeleteAll(env, t.w, doomed, []).w);
    }
  }

  /** A full healthy round after the first `from` steps, and after it nothing but garbage collection. */
  predicate HealthyAtTheEnd(trail: seq<Event>, from: nat) {
    exists k: nat :: from + 2 <= k <= |trail| && EndsHealthy(trail[..k]) &&
      forall i :: k <= i < |trail| ==> trail[i].prim.Find? || trail[i].prim.Remove?
  }

  lemma SettleSucceeds(env: Env, w: World, install: string, now: DateTime, dir: Option<string>, newState: RelayState)
    requires Settle(env, w, install, now, dir, newState).r.Ok?
    ensures var t := Settle(env, w, install, now, dir, newState);
            && At(t.w.fs, PlaceOf(install, Compose)) == At(w.fs, PlaceOf(install, Compose))
            && At(t.w.fs, PlaceOf(install, State)) == At(w.fs, PlaceOf(install, State))
            && t.w.running == w.running && HealthyAtTheEnd(t.w.trail, |w.trail|)
            && t.r.value.changed && t.r.value.newState == newState
  {
    hide HealthCheck, GcBackups, PlaceOf, EndsHealthy;
    var h := HealthCheck(env, w);
    HealthCheckIdle(env, w);
    HealthCheckEndsHealthy(env, w);
    GcCollects(env, h.w, install, now);
    GcLeavesLive(env, h.w, install, now, Compose);
    GcLeavesLive(env, h.w, install, now, State);
    var g := GcBackups(env, h.w, install, now);
    assert g.w.trail[..|h.w.trail|] == h.w.trail;
  }

  lemma HealthCheckEndsHealthy(env: Env, w: World)
    requires HealthCheck(env, w).r.Ok?
    ensures EndsHealthy(HealthCheck(env, w).w.trail) && |w.trail| + 2 <= |HealthCheck(env, w).w.trail|
  {
    hide HealthLoop, EndsHealthy;
    HealthyMeansOneRound(env, w, w.clock + env.timeout);
  }

  lemma HealthySince(trail: seq<Event>, from: nat, start: nat)
    requires HealthyAtTheEnd(trail, start) && from <= start
    ensures HealthyAtTheEnd(trail, from)
  {
    hide EndsHealthy;
  }

  lemma LaunchedLater(env: Env, w: World, install: string, opts: UpdateOptions, images: seq<ImageUpdate>, now: DateTime)
    requires Launched(env, w, install, opts, images, now).Some?
    ensures |w.trail| <= |Launched(env, w, install, opts, images, now).value.0.trail|
  {
    hide LoadState, RunAll, RenderPins, DeployCommands;
  }

  lemma LaunchedRuns(env: Env, w: World, install: string, opts: UpdateOptions, images: seq<ImageUpdate>, now: DateTime)
    requires Launched(env, w, install, opts, images, now).Some?
    ensures var (v, newState, compose) := Launched(env, w, install, opts, images, now).value;
            && Runs(v, install, Some(compose), Some(env.toml.encode(newState)))
            && RenderPins(opts.template, newState.images) == Ok(compose)
            && newState.images == PinsOf(images, now)
  {
    hide LoadState, RunAll, RenderPins, DeployCommands, PlaceOf;
    var l := LoadState(env, w, install);
    var newState := ApplyUpdate(l.r.value, PinsOf(images, now), now);
    var compose := RenderPins(opts.template, PinsOf(images, now)).value;
    DeployHolds(env.remote, l.w, install, compose, env.toml.encode(newState));
  }

  lemma DeploySucceeds(env: Env, w: World, install: string, opts: UpdateOptions, images: seq<ImageUpdate>, now: DateTime,
                       dir: Option<string>)
    requires Deploy(env, w, install, opts, images, now, dir).r.Ok?
    ensures var t := Deploy(env, w, install, opts, images, now, dir);
            IsDeployed(env, w, install, opts, t) && t.r.value.changed && t.r.value.newState.images == PinsOf(images, now)
  {
    hide Deploy, Settle, Launched, PlaceOf, RenderPins, HealthyAtTheEnd;
    DeploySettles(env, w, install, opts, images, now, dir);
    LaunchedRuns(env, w, install, opts, images, now);
    var (v, newState, compose) := Launched(env, w, install, opts, images, now).value;
    SettleSucceeds(env, v, install, now, dir, newState);
    LaunchedLater(env, w, install, opts, images, now);
    HealthySince(Deploy(env, w, install, opts, images, now, dir).w.trail, |w.trail|, |v.trail|);
  }

  /** What a changing update from `w` that returns success has left behind. */
  predicate IsDeployed(env: Env, w: World, install: string, opts: UpdateOptions, t: Run<UpdateReport>) {
    && t.r.Ok? && t.r.value.changed
    && var state := t.r.value.newState;
    var compose := RenderPins(opts.template, state.images);
    && compose.Ok?
    && Runs(t.w, install, Some(compose.value), Some(env.toml.encode(state)))
    && HealthyAtTheEnd(t.w.trail, |w.trail|)
  }

  lemma DeployedSince(env: Env, w: World, v: World, install: string, opts: UpdateOptions, t: Run<UpdateReport>)
    requires IsDeployed(env, v, install, opts, t) && |w.trail| <= |v.trail|
    ensures IsDeployed(env, w, install, opts, t)
  {
    hide HealthyAtTheEnd, PlaceOf, RenderPins;
    HealthySince(t.w.trail, |w.trail|, |v.trail|);
  }

  /** Success: either nothing was to be done and nothing was touched, or the live files are the
      rendered compose text and the new state, that text is running, and it passed a full probe
      round after which only garbage was collected. */
  lemma UpdateSucceeds(env: Env, w: World, install: string, opts: UpdateOptions)
    requires Update(env, w, install, opts).r.Ok?
    ensures var t := Update(env, w, install, opts);
            if t.r.value.changed then IsDeployed(env, w, install, opts, t) else Idle(w, t.w)
  {
    hide CheckUpdates, LoadState, TakeBackup, Deploy, BackupDir, IsDeployed, Idle;
    CheckUpdatesIdle(env, w, install);
    var c := CheckUpdates(env, w, install);
    if AnyUpdate(c.r.value) {
      ReplaceSucceeds(env, c.w, install, opts, c.r.value);
      DeployedSince(env, w, c.w, install, opts, Update(env, w, install, opts));
    } else {
      LoadStateIdle(env, c.w, install);
      IdleTransitive(w, c.w, LoadState(env, c.w, install).w);
    }
  }

  lemma ReplaceSucceeds(env: Env, w: World, install: string, opts: UpdateOptions, images: seq<ImageUpdate>)
    requires Replace(env, w, install, opts, images).r.Ok?
    ensures var t := Replace(env, w, install, opts, images);
            && IsDeployed(env, w, install, opts, t) && t.r.value.changed
            && t.r.value.newState.images == PinsOf(images, env.wall(|w.trail|))
  {
    hide TakeBackup, Deploy, BackupDir, IsDeployed;
    var now := env.wall(|w.trail|);
    var dir := BackupDir(install, now);
    if opts.skipBackup {
      DeploySucceeds(env, w, install, opts, images, now, None);
    } else {
      var b := TakeBackup(env, w, install, dir);
      DeploySucceeds(env, b.w, install, opts, images, now, Some(dir));
      DeployedSince(env, w, b.w, install, opts, Replace(env, w, install, opts, images));
    }
  }

  /** What a successful update pins: every reference to a new image in the live compose file carries
      its digest, for pins the renderer can write in any order; but a template that mentions none of
      the new tags goes live as it is, and exactly then. */
  lemma UpdatePins(env: Env, w: World, install: string, opts: UpdateOptions)
    requires Update(env, w, install, opts).r.Ok? && Update(env, w, install, opts).r.value.changed
    ensures var t := Update(env, w, install, opts);
            var live, pins := At(t.w.fs, PlaceOf(install, Compose)), t.r.value.newState.images;
            && live.Some?
            && (PinsCompatible(pins) ==> forall p :: p in pins ==> IsMarked(live.value, p))
            && (live.value == opts.template <==>
                forall p :: p in pins ==> Comp.Matches(opts.template, Comp.Search(Comp.KeyOf(p))) == 0)
  {
    hide Update, PlaceOf, HealthyAtTheEnd, RenderPins, PinsCompatible;
    UpdateSucceeds(env, w, install, opts);
    var t := Update(env, w, install, opts);
    var pins := t.r.value.newState.images;
    RenderInserts(opts.template, pins);
    RenderOtherTag(opts.template, pins);
    if PinsCompatible(pins) {
      forall p | p in pins
        ensures IsMarked(RenderPins(opts.template, pins).value, p)
      {
        RenderPinsEverything(opts.template, pins, p);
      }
    }
  }

  /** And which templates go live half pinned: in the live compose file every reference to a repository
      carries a digest exactly when every one in the template names a tag the update chose. */
  lemma UpdateCovers(env: Env, w: World, install: string, opts: UpdateOptions, repo: string)
    requires Update(env, w, install, opts).r.Ok? && Update(env, w, install, opts).r.value.changed && IsRepo(repo)
    requires var pins := Update(env, w, install, opts).r.value.newState.images; PinsCompatible(pins) && Coverage.TagsClear(pins)
    ensures var t := Update(env, w, install, opts);
            var live, keys := At(t.w.fs, PlaceOf(install, Compose)), Keys(t.r.value.newState.images);
            && live.Some?
            && (Coverage.AllPinned(live.value, Coverage.Head(repo), keys) <==>
                Coverage.AllNamed(opts.template, Coverage.Head(repo), keys))
  {
    hide Update, PlaceOf, HealthyAtTheEnd, RenderPins, PinsCompatible, Coverage.TagsClear, Coverage.AllPinned, Coverage.AllNamed;
    UpdateSucceeds(env, w, install, opts);
    Coverage.RenderCovers(opts.template, Update(env, w, install, opts).r.value.newState.images, repo);
  }

  predicate IsMarked(compose: string, p: ImagePin) {
    Comp.FullyMarked(compose, Comp.Search(Comp.KeyOf(p)), Comp.Mark(Comp.KeyOf(p)))
  }
}
