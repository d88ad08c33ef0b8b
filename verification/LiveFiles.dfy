// The live compose and state files while an update runs, and how an update that fails can end.
module LiveFiles {
  import opened Wrappers
  import opened Text
  import opened Paths
  import opened Commands
  import opened Shell
  import opened ShellFacts
  import opened State
  import opened Render
  import opened Protocol
  import opened RunFacts
  import opened UpdateFacts
  import opened UpdateTheorems
  import opened Recovery
  import opened Lineage

  // ---------------------------------------------------------------------------
  // One of two contents at every step
  // ---------------------------------------------------------------------------

  /** At the end and at every step in between, the file has one of two contents. */
  predicate Stays(w: World, v: World, l: Location, a: Option<Bytes>, b: Option<Bytes>) {
    && w.trail <= v.trail && At(v.fs, l) in {a, b}
    && forall i :: |w.trail| <= i < |v.trail| ==> At(v.trail[i].fs, l) in {a, b}
  }

  lemma QuietStays(w: World, v: World, l: Location, a: Option<Bytes>, b: Option<Bytes>)
    requires Quiet(w, v, l) && At(w.fs, l) in {a, b}
    ensures Stays(w, v, l, a, b)
  {
  }

  lemma StaysTransitive(u: World, v: World, w: World, l: Location, a: Option<Bytes>, b: Option<Bytes>)
    requires Stays(u, v, l, a, b) && Stays(v, w, l, a, b)
    ensures Stays(u, w, l, a, b)
  {
    forall i | |u.trail| <= i < |w.trail|
      ensures At(w.trail[i].fs, l) in {a, b}
    {
      if i < |v.trail| {
        assert w.trail[i] == v.trail[i];
      }
    }
  }

  lemma WriteStays(s: Schedule, w: World, path: string, content: Bytes, l: Location, a: Option<Bytes>)
    requires l == Locate(path) && At(w.fs, l) in {a, Some(content)}
    ensures Stays(w, Do(s, w, WriteFile(path, content)).w, l, a, Some(content))
  {
    hide Do, Locate;
    WriteIsAtomic(s, w, path, content);
  }

  /** Between steps `from` and `n` a `cp` onto the file was torn halfway. */
  predicate IsLost(s: Schedule, trail: seq<Event>, from: nat, n: nat, l: Location) {
    exists j :: from <= j < n && j < |trail| && IsTorn(s, trail, j, l)
  }

  /** At the end and at every step in between, the file has one of two contents, unless a `cp` onto it
      was torn before. */
  predicate Keeps(s: Schedule, w: World, v: World, l: Location, a: Option<Bytes>, b: Option<Bytes>) {
    && w.trail <= v.trail && (IsLost(s, v.trail, |w.trail|, |v.trail|, l) || At(v.fs, l) in {a, b})
    && forall i :: |w.trail| <= i < |v.trail| ==> IsLost(s, v.trail, |w.trail|, i + 1, l) || At(v.trail[i].fs, l) in {a, b}
  }

  lemma StaysKeeps(s: Schedule, w: World, v: World, l: Location, a: Option<Bytes>, b: Option<Bytes>)
    requires Stays(w, v, l, a, b)
    ensures Keeps(s, w, v, l, a, b)
  {
    hide IsLost;
  }

  lemma LostLater(s: Schedule, a: seq<Event>, b: seq<Event>, from: nat, start: nat, n: nat, m: nat, l: Location)
    requires a <= b && from <= start && n <= m && IsLost(s, a, start, n, l)
    ensures IsLost(s, b, from, m, l)
  {
    hide Locate;
    var j :| start <= j < n && j < |a| && IsTorn(s, a, j, l);
    assert IsTorn(s, b, j, l);
  }

  lemma KeepsTransitive(s: Schedule, u: World, v: World, w: World, l: Location, a: Option<Bytes>, b: Option<Bytes>)
    requires Keeps(s, u, v, l, a, b) && Keeps(s, v, w, l, a, b)
    ensures Keeps(s, u, w, l, a, b)
  {
    hide IsLost;
    forall i | |u.trail| <= i < |w.trail|
      ensures IsLost(s, w.trail, |u.trail|, i + 1, l) || At(w.trail[i].fs, l) in {a, b}
    {
      if i < |v.trail| {
        assert w.trail[i] == v.trail[i];
        if IsLost(s, v.trail, |u.trail|, i + 1, l) {
          LostLater(s, v.trail, w.trail, |u.trail|, |u.trail|, i + 1, i + 1, l);
        }
      } else if IsLost(s, w.trail, |v.trail|, i + 1, l) {
        LostLater(s, w.trail, w.trail, |u.trail|, |v.trail|, i + 1, i + 1, l);
      }
    }
    if IsLost(s, w.trail, |v.trail|, |w.trail|, l) {
      LostLater(s, w.trail, w.trail, |u.trail|, |v.trail|, |w.trail|, |w.trail|, l);
    }
  }

  lemma CopyKeeps(s: Schedule, w: World, src: string, dst: string, l: Location, a: Option<Bytes>, b: Option<Bytes>)
    requires l == Locate(dst) && At(w.fs, l) in {a, b} && At(w.fs, Locate(src)) == a
    ensures Keeps(s, w, Do(s, w, CopyFile(src, dst)).w, l, a, b)
    ensures Succeeds(s, w, CopyFile(src, dst)) ==> At(ExecOk(s, w, CopyFile(src, dst)).w.fs, l) == a
  {
    hide Do, Locate, Succeeds;
    var c := CopyFile(src, dst);
    if Succeeds(s, w, c) {
      CopySuccess(s, w, src, dst);
    }
    CopyStep(s, w, src, dst, l, a, b);
  }

  lemma CopyStep(s: Schedule, w: World, src: string, dst: string, l: Location, a: Option<Bytes>, b: Option<Bytes>)
    requires l == Locate(dst) && At(w.fs, l) in {a, b} && At(w.fs, Locate(src)) == a
    ensures Keeps(s, w, Do(s, w, CopyFile(src, dst)).w, l, a, b)
  {
    hide Locate, Accepts, Script;
    var c := CopyFile(src, dst);
    var v := Do(s, w, c).w;
    if Accepts(c) {
      OneStep(s, w, c);
      assert |v.trail| == |w.trail| + 1;
      assert v.trail[|w.trail|].code != 0 && s.outcome(|w.trail|).tornCopy.Some? ==> IsTorn(s, v.trail, |w.trail|, l);
    }
  }

  lemma RunAllStays(s: Schedule, w: World, cs: seq<Cmd>, l: Location, a: Option<Bytes>, b: Option<Bytes>)
    requires cs != [] && Stays(w, Do(s, w, cs[0]).w, l, a, b)
    requires Succeeds(s, w, cs[0]) ==>
               Stays(ExecOk(s, w, cs[0]).w, RunAll(s, ExecOk(s, w, cs[0]).w, cs[1..]).w, l, a, b)
    ensures Stays(w, RunAll(s, w, cs).w, l, a, b)
  {
    hide Do, Stays;
    var t := ExecOk(s, w, cs[0]);
    if t.r.Ok? {
      StaysTransitive(w, t.w, RunAll(s, t.w, cs[1..]).w, l, a, b);
    }
  }

  lemma RunAllKeeps(s: Schedule, w: World, cs: seq<Cmd>, l: Location, a: Option<Bytes>, b: Option<Bytes>)
    requires cs != [] && Keeps(s, w, Do(s, w, cs[0]).w, l, a, b)
    requires Succeeds(s, w, cs[0]) ==>
               Keeps(s, ExecOk(s, w, cs[0]).w, RunAll(s, ExecOk(s, w, cs[0]).w, cs[1..]).w, l, a, b)
    ensures Keeps(s, w, RunAll(s, w, cs).w, l, a, b)
  {
    hide Do, Keeps;
    var t := ExecOk(s, w, cs[0]);
    if t.r.Ok? {
      KeepsTransitive(s, w, t.w, RunAll(s, t.w, cs[1..]).w, l, a, b);
    }
  }

  /** The command leaves the file alone, or writes exactly this content to it. */
  predicate WritesOnly(c: Cmd, l: Location, content: Bytes) {
    !MayChange(c, l) || (c.WriteFile? && Locate(c.path) == l && c.content == content)
  }

  lemma {:induction false} RunAllWrites(s: Schedule, w: World, cs: seq<Cmd>, l: Location, a: Option<Bytes>, content: Bytes)
    requires At(w.fs, l) in {a, Some(content)} && forall c :: c in cs ==> WritesOnly(c, l, content)
    ensures Stays(w, RunAll(s, w, cs).w, l, a, Some(content))
    decreases |cs|
  {
    hide Do, MayChange, Locate;
    if cs != [] {
      var c, t := cs[0], ExecOk(s, w, cs[0]);
      assert c in cs;
      if MayChange(c, l) {
        WriteStays(s, w, c.path, c.content, l, a);
      } else {
        DoQuiet(s, w, c, l);
        QuietStays(w, Do(s, w, c).w, l, a, Some(content));
      }
      if t.r.Ok? {
        RunAllWrites(s, t.w, cs[1..], l, a, content);
        StaysTransitive(w, t.w, RunAll(s, t.w, cs[1..]).w, l, a, Some(content));
      }
    }
  }

  lemma WriteOnlyPlace(install: string, q: Place, content: Bytes, p: Place)
    ensures SamePlace(p, q) ==> WritesOnly(WriteFile(PathOf(install, q, false), content), PlaceOf(install, p), content)
    ensures !SamePlace(p, q) ==> !MayChange(WriteFile(PathOf(install, q, false), content), PlaceOf(install, p))
  {
    hide PathOf, MayChange, SamePlace, Locate;
    if SamePlace(p, q) {
      PlacesDistinct(install, p, q, false, false);
    } else {
      WriteChanges(install, q, content, p);
    }
  }

  lemma DeployCommandsStay(s: Schedule, w: World, install: string, compose: Bytes, state: Bytes, p: Place, a: Option<Bytes>)
    requires p.Compose? || p.State?
    requires At(w.fs, PlaceOf(install, p)) == a
    ensures Stays(w, RunAll(s, w, DeployCommands(install, compose, state)).w, PlaceOf(install, p), a,
                  Some(if p.Compose? then compose else state))
  {
    hide RunAll, PathOf, PlaceOf, MayChange, Stays;
    HelpersNamePlaces(install, Instant(0, 1970, 1, 1, 0, 0, 0));
    WriteOnlyPlace(install, Compose, compose, p);
    WriteOnlyPlace(install, State, state, p);
    PullChangesNothing(install, PlaceOf(install, p));
    UpChanges(install, p);
    RunAllWrites(s, w, DeployCommands(install, compose, state), PlaceOf(install, p), a, if p.Compose? then compose else state);
  }

  lemma InstallCommandsStay(s: Schedule, w: World, install: string, compose: Bytes, envText: Bytes, state: Bytes)
    ensures Stays(w, RunAll(s, w, InstallCommands(install, compose, envText, state)).w, PlaceOf(install, State),
                  At(w.fs, PlaceOf(install, State)), Some(state))
  {
    hide RunAll, PathOf, PlaceOf, MayChange, Stays, ComposePath, EnvPath, StatePath, DataPath, BackupsPath;
    HelpersNamePlaces(install, Instant(0, 1970, 1, 1, 0, 0, 0));
    var l := PlaceOf(install, State);
    MkdirChangesNothing(install, l);
    MkdirChangesNothing(DataPath(install), l);
    MkdirChangesNothing(BackupsPath(install), l);
    WriteOnlyPlace(install, Compose, compose, State);
    WriteOnlyPlace(install, Place.Env, envText, State);
    WriteOnlyPlace(install, State, state, State);
    UpChanges(install, State);
    RunAllWrites(s, w, InstallCommands(install, compose, envText, state), l, At(w.fs, l), state);
  }

  lemma PlaceIs(install: string, p: Place)
    ensures PlaceOf(install, p) == Locate(PathOf(install, p, false))
  {
  }

  lemma StayedAt(w: World, v: World, l: Location, a: Option<Bytes>, b: Option<Bytes>)
    requires Stays(w, v, l, a, b)
    ensures At(v.fs, l) in {a, b}
  {
  }

  /** Where the backup keeps a live file. */
  function SavedOf(p: Place, at: DateTime): Place {
    if p.Compose? then SavedCompose(at) else SavedState(at)
  }

  lemma RestStays(s: Schedule, w: World, install: string, p: Place, a: Option<Bytes>, b: Option<Bytes>)
    requires (p.Compose? || p.State?) && At(w.fs, PlaceOf(install, p)) in {a, b}
    ensures Stays(w, RunAll(s, w, [ComposeUp(install)]).w, PlaceOf(install, p), a, b)
  {
    hide RunAll, PlaceOf, MayChange, Stays;
    UpChanges(install, p);
    RunAllQuiet(s, w, [ComposeUp(install)], PlaceOf(install, p));
    QuietStays(w, RunAll(s, w, [ComposeUp(install)]).w, PlaceOf(install, p), a, b);
  }

  lemma RestoreCompose(s: Schedule, w: World, install: string, at: DateTime, a: Option<Bytes>, b: Option<Bytes>)
    requires At(w.fs, PlaceOf(install, Compose)) in {a, b} && At(w.fs, PlaceOf(install, SavedCompose(at))) == a
    ensures var t := RunAll(s, w, RestoreCommands(install, BackupDir(install, at)));
            Keeps(s, w, t.w, PlaceOf(install, Compose), a, b) && (t.r.Ok? ==> At(t.w.fs, PlaceOf(install, Compose)) in {a, b})
  {
    hide Do, ExecOk, RunAll, PathOf, PlaceOf, MayChange, Stays, Succeeds, Keeps;
    BackupPaths(install, at);
    var l, cs := PlaceOf(install, Compose), RestoreCommands(install, BackupDir(install, at));
    var c0, c1, rest := cs[0], cs[1], [cs[2]];
    assert cs[1..] == [c1] + rest && ([c1] + rest)[1..] == rest;
    PlaceIs(install, Compose);
    PlaceIs(install, SavedCompose(at));
    CopyKeeps(s, w, c0.src, c0.dst, l, a, b);
    var w1 := ExecOk(s, w, c0).w;
    if Succeeds(s, w, c0) {
      CopyChanges(install, c1.src, State, Compose);
      DoQuiet(s, w1, c1, l);
      QuietStays(w1, Do(s, w1, c1).w, l, a, b);
      ExecIsDo(s, w1, c1);
      var w2 := ExecOk(s, w1, c1).w;
      StayedAt(w1, w2, l, a, b);
      RestStays(s, w2, install, Compose, a, b);
      RunAllStays(s, w1, [c1] + rest, l, a, b);
      StaysKeeps(s, w1, RunAll(s, w1, [c1] + rest).w, l, a, b);
      StayedAt(w1, RunAll(s, w1, [c1] + rest).w, l, a, b);
    }
    RunAllKeeps(s, w, cs, l, a, b);
    RunAllHead(s, w, cs);
  }

  lemma RunAllHead(s: Schedule, w: World, cs: seq<Cmd>)
    requires cs != []
    ensures RunAll(s, w, cs).r.Ok? ==> Succeeds(s, w, cs[0]) && RunAll(s, w, cs) == RunAll(s, ExecOk(s, w, cs[0]).w, cs[1..])
  {
    hide ExecOk;
  }

  lemma RestoreState(s: Schedule, w: World, install: string, at: DateTime, a: Option<Bytes>, b: Option<Bytes>)
    requires At(w.fs, PlaceOf(install, State)) in {a, b} && At(w.fs, PlaceOf(install, SavedState(at))) == a
    ensures var t := RunAll(s, w, RestoreCommands(install, BackupDir(install, at)));
            Keeps(s, w, t.w, PlaceOf(install, State), a, b) && (t.r.Ok? ==> At(t.w.fs, PlaceOf(install, State)) in {a, b})
  {
    hide Do, ExecOk, RunAll, PathOf, PlaceOf, MayChange, Stays, Succeeds, Keeps;
    BackupPaths(install, at);
    var l, cs := PlaceOf(install, State), RestoreCommands(install, BackupDir(install, at));
    var c0, c1, rest := cs[0], cs[1], [cs[2]];
    assert cs[1..] == [c1] + rest && ([c1] + rest)[1..] == rest;
    PlaceIs(install, State);
    PlaceIs(install, SavedState(at));
    CopyChanges(install, c0.src, Compose, State);
    CopyChanges(install, c0.src, Compose, SavedState(at));
    DoQuiet(s, w, c0, l);
    DoQuiet(s, w, c0, PlaceOf(install, SavedState(at)));
    QuietStays(w, Do(s, w, c0).w, l, a, b);
    ExecIsDo(s, w, c0);
    var w1 := ExecOk(s, w, c0).w;
    StayedAt(w, w1, l, a, b);
    StaysKeeps(s, w, w1, l, a, b);
    CopyKeeps(s, w1, c1.src, c1.dst, l, a, b);
    var w2 := ExecOk(s, w1, c1).w;
    if Succeeds(s, w1, c1) {
      RestStays(s, w2, install, State, a, b);
      StaysKeeps(s, w2, RunAll(s, w2, rest).w, l, a, b);
      StayedAt(w2, RunAll(s, w2, rest).w, l, a, b);
    }
    RunAllKeeps(s, w1, [c1] + rest, l, a, b);
    RunAllKeeps(s, w, cs, l, a, b);
    RunAllHead(s, w, cs);
    RunAllHead(s, w1, [c1] + rest);
  }

  lemma RollbackKeeps(env: Env, w: World, install: string, at: DateTime, p: Place, a: Option<Bytes>, b: Option<Bytes>)
    requires p.Compose? || p.State?
    requires At(w.fs, PlaceOf(install, p)) in {a, b} && At(w.fs, PlaceOf(install, SavedOf(p, at))) == a
    ensures Keeps(env.remote, w, Rollback(env, w, install, BackupDir(install, at)).w, PlaceOf(install, p), a, b)
  {
    hide RunAll, PlaceOf, Stays, Keeps, HealthCheck, BackupDir;
    var l, t := PlaceOf(install, p), RunAll(env.remote, w, RestoreCommands(install, BackupDir(install, at)));
    if p.Compose? {
      RestoreCompose(env.remote, w, install, at, a, b);
    } else {
      RestoreState(env.remote, w, install, at, a, b);
    }
    if t.r.Ok? {
      var v := HealthCheck(env, t.w).w;
      HealthCheckIdle(env, t.w);
      IdleIsQuiet(t.w, v, l);
      QuietStays(t.w, v, l, a, b);
      StaysKeeps(env.remote, t.w, v, l, a, b);
      KeepsTransitive(env.remote, w, t.w, v, l, a, b);
    }
  }

  lemma SettleKeeps(env: Env, w: World, install: string, now: DateTime, dir: Option<DateTime>, newState: RelayState,
                    p: Place, a: Option<Bytes>, b: Option<Bytes>)
    requires p.Compose? || p.State?
    requires At(w.fs, PlaceOf(install, p)) in {a, b}
    requires dir.Some? ==> At(w.fs, PlaceOf(install, SavedOf(p, dir.value))) == a
    ensures Keeps(env.remote, w, Settle(env, w, install, now, DirOf(install, dir), newState).w, PlaceOf(install, p), a, b)
  {
    hide HealthCheck, GcBackups, Rollback, PlaceOf, BackupDir, Stays, Keeps;
    var l, h := PlaceOf(install, p), HealthCheck(env, w);
    HealthCheckIdle(env, w);
    IdleIsQuiet(w, h.w, l);
    QuietStays(w, h.w, l, a, b);
    StaysKeeps(env.remote, w, h.w, l, a, b);
    IdleSameFs(w, h.w);
    if h.r.Ok? {
      var v := GcBackups(env, h.w, install, now).w;
      GcLeavesLive(env, h.w, install, now, p);
      QuietStays(h.w, v, l, a, b);
      StaysKeeps(env.remote, h.w, v, l, a, b);
      KeepsTransitive(env.remote, w, h.w, v, l, a, b);
    } else if dir.Some? {
      RollbackKeeps(env, h.w, install, dir.value, p, a, b);
      KeepsTransitive(env.remote, w, h.w, Rollback(env, h.w, install, BackupDir(install, dir.value)).w, l, a, b);
    }
  }

  // ---------------------------------------------------------------------------
  // What an update means to write
  // ---------------------------------------------------------------------------

  datatype Target = Target(compose: Bytes, state: Bytes)

  /** What a deployment that gets to the point of writing writes. */
  function DeployTarget(env: Env, w: World, install: string, opts: UpdateOptions, images: seq<ImageUpdate>, now: DateTime)
    : Option<Target>
  {
    var l := LoadState(env, w, install);
    if l.r.Err? then None
    else
      var pins := PinsOf(images, now);
      var compose := RenderPins(opts.template, pins);
      if compose.Err? then None
      else Some(Target(compose.value, env.toml.encode(ApplyUpdate(l.r.value, pins, now))))
  }

  function UpdateTarget(env: Env, w: World, install: string, opts: UpdateOptions): Option<Target> {
    match Decided(env, w, install, opts)
    case None => None
    case Some((v, images)) =>
      var b := Secured(env, v, install, opts);
      if b.r.Err? then None else DeployTarget(env, b.w, install, opts, images, env.wall(|v.trail|))
  }

  function ContentOf(t: Target, p: Place): Bytes {
    if p.Compose? then t.compose else t.state
  }

  /** The contents a live file may have: what it had, and what the update means to write, if anything. */
  predicate KeepsOn(s: Schedule, w: World, v: World, l: Location, target: Option<Target>, p: Place) {
    if target.None? then Quiet(w, v, l) else Keeps(s, w, v, l, At(w.fs, l), Some(ContentOf(target.value, p)))
  }

  lemma DeployKeeps(env: Env, w: World, install: string, opts: UpdateOptions, images: seq<ImageUpdate>, now: DateTime,
                    dir: Option<DateTime>, p: Place)
    requires p.Compose? || p.State?
    requires dir.Some? ==> At(w.fs, PlaceOf(install, SavedOf(p, dir.value))) == At(w.fs, PlaceOf(install, p))
    ensures KeepsOn(env.remote, w, Deploy(env, w, install, opts, images, now, DirOf(install, dir)).w, PlaceOf(install, p),
                    DeployTarget(env, w, install, opts, images, now), p)
  {
    hide LoadState, RunAll, RenderPins, Settle, DeployCommands, PlaceOf, Stays, Keeps, BackupDir, Quiet;
    var l, s := PlaceOf(install, p), LoadState(env, w, install);
    LoadStateIdle(env, w, install);
    IdleIsQuiet(w, s.w, l);
    var target := DeployTarget(env, w, install, opts, images, now);
    if target.Some? {
      var a, b := At(w.fs, l), Some(ContentOf(target.value, p));
      var newState := ApplyUpdate(s.r.value, PinsOf(images, now), now);
      var t := RunAll(env.remote, s.w, DeployCommands(install, target.value.compose, target.value.state));
      IdleSameFs(w, s.w);
      QuietStays(w, s.w, l, a, b);
      DeployCommandsStay(env.remote, s.w, install, target.value.compose, target.value.state, p, a);
      StaysTransitive(w, s.w, t.w, l, a, b);
      StaysKeeps(env.remote, w, t.w, l, a, b);
      if t.r.Ok? {
        StayedAt(s.w, t.w, l, a, b);
        if dir.Some? {
          DeployCommandsQuiet(env.remote, s.w, install, target.value.compose, target.value.state, SavedOf(p, dir.value));
          QuietAt(s.w, t.w, PlaceOf(install, SavedOf(p, dir.value)));
        }
        SettleKeeps(env, t.w, install, now, dir, newState, p, a, b);
        KeepsTransitive(env.remote, w, t.w, Settle(env, t.w, install, now, DirOf(install, dir), newState).w, l, a, b);
      }
    }
  }

  lemma QuietAt(w: World, v: World, l: Location)
    requires Quiet(w, v, l)
    ensures At(v.fs, l) == At(w.fs, l)
  {
  }

  lemma SecuredQuiet(env: Env, w: World, install: string, opts: UpdateOptions, p: Place)
    requires p.Compose? || p.State?
    ensures Quiet(w, Secured(env, w, install, opts).w, PlaceOf(install, p))
    ensures var at := env.wall(|w.trail|);
            var b := Secured(env, w, install, opts);
            !opts.skipBackup && b.r.Ok? ==> At(b.w.fs, PlaceOf(install, SavedOf(p, at))) == At(w.fs, PlaceOf(install, p))
  {
    hide TakeBackup, PlaceOf, BackupDir;
    var at := env.wall(|w.trail|);
    if !opts.skipBackup {
      TakeBackupQuiet(env, w, install, at, p);
      if TakeBackup(env, w, install, BackupDir(install, at)).r.Ok? {
        BackupTaken(env, w, install, at);
      }
    }
  }

  /** At every step of every update, whatever fails, a live file holds exactly its old contents or
      exactly what the update means to write, unless a `cp` onto that very file was torn halfway; it is not
      touched at all by an update that gives up before it knows what to write. */
  lemma LiveOldOrNew(env: Env, w: World, install: string, opts: UpdateOptions, p: Place)
    requires p.Compose? || p.State?
    ensures KeepsOn(env.remote, w, Update(env, w, install, opts).w, PlaceOf(install, p), UpdateTarget(env, w, install, opts), p)
  {
    hide CheckUpdates, LoadState, Replace, PlaceOf, BackupDir, Quiet, Keeps, Secured, DeployTarget;
    var l, c := PlaceOf(install, p), CheckUpdates(env, w, install);
    CheckUpdatesIdle(env, w, install);
    IdleIsQuiet(w, c.w, l);
    if Decided(env, w, install, opts).None? {
      LoadStateIdle(env, c.w, install);
      IdleIsQuiet(c.w, LoadState(env, c.w, install).w, l);
      QuietTransitive(w, c.w, LoadState(env, c.w, install).w, l);
      QuietSelf(w, l);
    } else {
      ReplaceKeeps(env, c.w, install, opts, c.r.value, p);
      PrefixKeeps(env.remote, w, c.w, Replace(env, c.w, install, opts, c.r.value).w, l, UpdateTarget(env, w, install, opts), p);
    }
  }

  lemma PrefixKeeps(s: Schedule, u: World, v: World, w: World, l: Location, target: Option<Target>, p: Place)
    requires Quiet(u, v, l) && KeepsOn(s, v, w, l, target, p)
    ensures KeepsOn(s, u, w, l, target, p)
  {
    if target.None? {
      QuietTransitive(u, v, w, l);
    } else {
      var b := Some(ContentOf(target.value, p));
      QuietStays(u, v, l, At(u.fs, l), b);
      StaysKeeps(s, u, v, l, At(u.fs, l), b);
      KeepsTransitive(s, u, v, w, l, At(u.fs, l), b);
    }
  }

  function ReplaceTarget(env: Env, w: World, install: string, opts: UpdateOptions, images: seq<ImageUpdate>): Option<Target> {
    var b := Secured(env, w, install, opts);
    if b.r.Err? then None else DeployTarget(env, b.w, install, opts, images, env.wall(|w.trail|))
  }

  lemma ReplaceKeeps(env: Env, w: World, install: string, opts: UpdateOptions, images: seq<ImageUpdate>, p: Place)
    requires p.Compose? || p.State?
    ensures KeepsOn(env.remote, w, Replace(env, w, install, opts, images).w, PlaceOf(install, p),
                    ReplaceTarget(env, w, install, opts, images), p)
  {
    hide TakeBackup, Deploy, PlaceOf, BackupDir, KeepsOn, DeployTarget, Quiet;
    var at, l := env.wall(|w.trail|), PlaceOf(install, p);
    var b := Secured(env, w, install, opts);
    var dir := if opts.skipBackup then None else Some(at);
    SecuredQuiet(env, w, install, opts, p);
    if b.r.Ok? {
      QuietAt(w, b.w, l);
      DeployKeeps(env, b.w, install, opts, images, at, dir, p);
      PrefixKeeps(env.remote, w, b.w, Deploy(env, b.w, install, opts, images, at, DirOf(install, dir)).w, l,
                    ReplaceTarget(env, w, install, opts, images), p);
    } else {
      QuietKeeps(env.remote, w, b.w, l, p);
    }
  }

  lemma QuietKeeps(s: Schedule, w: World, v: World, l: Location, p: Place)
    requires Quiet(w, v, l)
    ensures KeepsOn(s, w, v, l, None, p)
  {
  }

  // ---------------------------------------------------------------------------
  // Ends without a rollback
  // ---------------------------------------------------------------------------

  lemma LaunchedTarget(env: Env, w: World, install: string, opts: UpdateOptions, images: seq<ImageUpdate>, now: DateTime)
    requires Launched(env, w, install, opts, images, now).Some?
    ensures var target := DeployTarget(env, w, install, opts, images, now);
            var v := Launched(env, w, install, opts, images, now).value.0;
            target.Some? && Runs(v, install, Some(target.value.compose), Some(target.value.state))
  {
    hide LoadState, RunAll, RenderPins, DeployCommands, PlaceOf, Runs;
    LaunchedRuns(env, w, install, opts, images, now);
  }

  /** Without a backup a failed health check undoes nothing: the error is the same, but the new
      files are live and the new compose text is running. */
  lemma NoBackupNoRollback(env: Env, w: World, install: string, opts: UpdateOptions)
    requires opts.skipBackup && Update(env, w, install, opts).r == Err(RelayHealthCheckFailed)
    ensures var target := UpdateTarget(env, w, install, opts);
            target.Some? && Runs(Update(env, w, install, opts).w, install, Some(target.value.compose), Some(target.value.state))
  {
    hide CheckUpdates, LoadState, Deploy, PlaceOf, Launched, DeployTarget, HealthCheck, GcBackups;
    CheckUpdatesErrors(env, w, install);
    var c := CheckUpdates(env, w, install);
    LoadStateErrors(env, c.w, install);
    var images, now := c.r.value, env.wall(|c.w.trail|);
    DeploySettles(env, c.w, install, opts, images, now, None);
    LaunchedTarget(env, c.w, install, opts, images, now);
    var v := Launched(env, c.w, install, opts, images, now).value.0;
    GcErrors(env, HealthCheck(env, v).w, install, now);
    HealthCheckIdle(env, v);
  }

  /** The world after both files were written, if the deployment gets there. */
  function Written(env: Env, w: World, install: string, target: Target): Run<()> {
    RunAll(env.remote, LoadState(env, w, install).w,
           [WriteFile(ComposePath(install), target.compose), WriteFile(StatePath(install), target.state)])
  }

  /** Both files are written, and then the pull or the start fails. */
  predicate StartFails(env: Env, w: World, install: string, opts: UpdateOptions) {
    && UpdateTarget(env, w, install, opts).Some?
    && var (v, _) := Decided(env, w, install, opts).value;
    var written := Written(env, Secured(env, v, install, opts).w, install, UpdateTarget(env, w, install, opts).value);
    written.r.Ok? && RunAll(env.remote, written.w, [ComposePull(install), ComposeUp(install)]).r.Err?
  }

  /** A pull or start that fails is not rolled back: the update fails with the new files live, and
      unless the connection was lost the old compose text is still the last one started. */
  lemma FailedStartLeavesNewFiles(env: Env, w: World, install: string, opts: UpdateOptions)
    requires StartFails(env, w, install, opts)
    ensures var t, target := Update(env, w, install, opts), UpdateTarget(env, w, install, opts).value;
            var (v, _) := Decided(env, w, install, opts).value;
            var written := Written(env, Secured(env, v, install, opts).w, install, target);
            var start := RunAll(env.remote, written.w, [ComposePull(install), ComposeUp(install)]);
            && t == Run(start.w, Err(start.r.error)) && IsTransportError(t.r.error)
            && At(t.w.fs, PlaceOf(install, Compose)) == Some(target.compose)
            && At(t.w.fs, PlaceOf(install, State)) == Some(target.state)
            && (t.r.error.RemoteCommandFailed? ==> t.w.running == w.running)
  {
    hide CheckUpdates, LoadState, RunAll, RenderPins, PlaceOf, Settle, TakeBackup, BackupDir, ComposePath, StatePath;
    CheckUpdatesIdle(env, w, install);
    var (v, images) := Decided(env, w, install, opts).value;
    var target := UpdateTarget(env, w, install, opts).value;
    var b := Secured(env, v, install, opts);
    SecuredRuns(env, v, install, opts);
    LoadStateIdle(env, b.w, install);
    var l := LoadState(env, b.w, install);
    FailedStart(env.remote, l.w, install, target.compose, target.state);
  }

  lemma SecuredRuns(env: Env, w: World, install: string, opts: UpdateOptions)
    ensures Secured(env, w, install, opts).w.running == w.running
  {
    hide Do, RunAll, BackupCommands, BackupDir;
    if !opts.skipBackup {
      var dir := BackupDir(install, env.wall(|w.trail|));
      NeverStarts(install, dir);
      RunAllRunning(env.remote, w, BackupCommands(install, dir));
      var t := RunAll(env.remote, w, BackupCommands(install, dir));
      DoIdle(env.remote, t.w, ComposeConfig(install));
      var c := Do(env.remote, t.w, ComposeConfig(install));
      if c.r.Ok? {
        RunAllRunning(env.remote, c.w, [WriteFile(PosixJoin(dir, CONFIG_FILE), c.r.value.stdout)]);
      }
    }
  }

  lemma NeverStarts(install: string, dir: string)
    ensures forall c :: c in BackupCommands(install, dir) ==> !c.ComposeUp?
  {
  }

  lemma {:induction false} ScriptRunning(s: Schedule, w: World, cwd: Location, prims: seq<Prim>)
    requires prims != [] && forall p :: p in prims ==> p != Up
    ensures RunScript(s, w, cwd, prims).w.running == w.running
    decreases |prims|
  {
    hide Look, Changes;
    var e := Apply(prims[0], cwd, w.fs, w.running, s.outcome(|w.trail|));
    assert prims[0] in prims;
    if e.code == 0 && |prims| > 1 {
      assert forall p :: p in prims[1..] ==> p in prims;
      ScriptRunning(s, After(w, prims[0], e), e.cwd, prims[1..]);
    }
  }

  lemma DoRunning(s: Schedule, w: World, c: Cmd)
    requires !c.ComposeUp?
    ensures Do(s, w, c).w.running == w.running
  {
    hide Accepts, RunScript;
    ScriptRunning(s, w, [], Script(c));
  }

  lemma {:induction false} RunAllRunning(s: Schedule, w: World, cs: seq<Cmd>)
    requires forall c :: c in cs ==> !c.ComposeUp?
    ensures RunAll(s, w, cs).w.running == w.running
    decreases |cs|
  {
    hide Do;
    if cs != [] {
      assert cs[0] in cs;
      DoRunning(s, w, cs[0]);
      RunAllRunning(s, ExecOk(s, w, cs[0]).w, cs[1..]);
    }
  }

  lemma {:induction false} RunAllSplits(s: Schedule, w: World, a: seq<Cmd>, b: seq<Cmd>)
    requires RunAll(s, w, a).r.Ok?
    ensures RunAll(s, w, a + b) == RunAll(s, RunAll(s, w, a).w, b)
    decreases |a|
  {
    hide ExecOk;
    if a == [] {
      assert a + b == b;
    } else {
      assert (a + b)[0] == a[0] && (a + b)[1..] == a[1..] + b;
      RunAllSplits(s, ExecOk(s, w, a[0]).w, a[1..], b);
    }
  }

  lemma WrittenHolds(s: Schedule, w: World, install: string, compose: Bytes, state: Bytes)
    requires RunAll(s, w, [WriteFile(ComposePath(install), compose), WriteFile(StatePath(install), state)]).r.Ok?
    ensures var v := RunAll(s, w, [WriteFile(ComposePath(install), compose), WriteFile(StatePath(install), state)]).w;
            && At(v.fs, PlaceOf(install, Compose)) == Some(compose)
            && At(v.fs, PlaceOf(install, State)) == Some(state) && v.running == w.running
  {
    hide ExecOk, PathOf, PlaceOf, RunAll, Succeeds;
    HelpersNamePlaces(install, Instant(0, 1970, 1, 1, 0, 0, 0));
    var cs := [WriteFile(ComposePath(install), compose), WriteFile(StatePath(install), state)];
    RunAllRunning(s, w, cs);
    assert cs[1..] == [cs[1]] && [cs[1]][1..] == [];
    RunAllStep(s, w, cs);
    WritePlaces(s, w, install, Compose, compose, State);
    var w1 := ExecOk(s, w, cs[0]).w;
    RunAllStep(s, w1, [cs[1]]);
    WritePlaces(s, w1, install, State, state, Compose);
    RunAllNone(s, ExecOk(s, w1, cs[1]).w);
  }

  lemma FailedStart(s: Schedule, w: World, install: string, compose: Bytes, state: Bytes)
    requires RunAll(s, w, [WriteFile(ComposePath(install), compose), WriteFile(StatePath(install), state)]).r.Ok?
    requires var v := RunAll(s, w, [WriteFile(ComposePath(install), compose), WriteFile(StatePath(install), state)]).w;
             RunAll(s, v, [ComposePull(install), ComposeUp(install)]).r.Err?
    ensures var t := RunAll(s, w, DeployCommands(install, compose, state));
            var v := RunAll(s, w, [WriteFile(ComposePath(install), compose), WriteFile(StatePath(install), state)]).w;
            && t == RunAll(s, v, [ComposePull(install), ComposeUp(install)]) && IsTransportError(t.r.error)
            && At(t.w.fs, PlaceOf(install, Compose)) == Some(compose)
            && At(t.w.fs, PlaceOf(install, State)) == Some(state)
            && (t.r.error.RemoteCommandFailed? ==> t.w.running == w.running)
  {
    hide RunAll, PlaceOf, MayChange, IsTransportError;
    var a := [WriteFile(ComposePath(install), compose), WriteFile(StatePath(install), state)];
    var b := [ComposePull(install), ComposeUp(install)];
    var v := RunAll(s, w, a).w;
    WrittenHolds(s, w, install, compose, state);
    RunAllSplits(s, w, a, b);
    assert a + b == DeployCommands(install, compose, state);
    RunAllErrors(s, v, b);
    PullChangesNothing(install, PlaceOf(install, Compose));
    PullChangesNothing(install, PlaceOf(install, State));
    UpChanges(install, Compose);
    UpChanges(install, State);
    RunAllQuiet(s, v, b, PlaceOf(install, Compose));
    RunAllQuiet(s, v, b, PlaceOf(install, State));
    FailedStartRunning(s, v, install);
  }

  /** A start that the host reports as failed did not change what is running. */
  lemma UpFailed(s: Schedule, w: World, install: string)
    ensures var t := ExecOk(s, w, ComposeUp(install));
            t.r.Err? && t.r.error.RemoteCommandFailed? ==> t.w.running == w.running
  {
    hide Locate, Accepts, Look, Changes;
    var c := ComposeUp(install);
    assert Script(c) == [ChangeDir(install), Up] && [ChangeDir(install), Up][1..] == [Up];
    if Accepts(c) {
      var e := Apply(ChangeDir(install), [], w.fs, w.running, s.outcome(|w.trail|));
      var v := After(w, ChangeDir(install), e);
      if e.code == 0 {
        assert RunScript(s, w, [], [ChangeDir(install), Up]) == RunScript(s, v, e.cwd, [Up]);
      }
    }
  }

  lemma FailedStartRunning(s: Schedule, w: World, install: string)
    requires RunAll(s, w, [ComposePull(install), ComposeUp(install)]).r.Err?
    ensures var t := RunAll(s, w, [ComposePull(install), ComposeUp(install)]);
            t.r.error.RemoteCommandFailed? ==> t.w.running == w.running
  {
    hide ExecOk;
    var cs := [ComposePull(install), ComposeUp(install)];
    assert cs[1..] == [ComposeUp(install)] && [ComposeUp(install)][1..] == [];
    var t := ExecOk(s, w, cs[0]);
    DoRunning(s, w, cs[0]);
    ExecIsDo(s, w, cs[0]);
    UpFailed(s, t.w, install);
    RunAllNone(s, ExecOk(s, t.w, cs[1]).w);
  }

  lemma ExecIsDo(s: Schedule, w: World, c: Cmd)
    ensures ExecOk(s, w, c).w == Do(s, w, c).w
  {
    hide Do;
  }
}
