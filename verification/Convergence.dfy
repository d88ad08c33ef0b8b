// Repeating a successful operation: a second update finds nothing to do, a second bootstrap finds
// the install; and what a bootstrap may write, and when.
module Convergence {
  import opened Wrappers
  import opened Text
  import opened Paths
  import opened Validators
  import opened Commands
  import opened Shell
  import opened ShellFacts
  import opened State
  import opened Render
  import opened Semver
  import opened Protocol
  import opened RunFacts
  import opened UpdateFacts
  import opened UpdateTheorems
  import opened Lineage
  import opened Recovery
  import opened LiveFiles

  // ---------------------------------------------------------------------------
  // Updates converge
  // ---------------------------------------------------------------------------

  /** The registry answers the same question the same way every time. */
  ghost predicate IsStable(r: Registry) {
    && (forall at: nat, i: nat, at': nat, i': nat, repo: string :: r.tags(at, i, repo) == r.tags(at', i', repo))
    && (forall at: nat, i: nat, at': nat, i': nat, repo: string, tag: string ::
          r.digest(at, i, repo, tag) == r.digest(at', i', repo, tag))
  }

  /** The pin an update would write for what the check found. */
  function Repinned(u: ImageUpdate, now: DateTime): ImagePin {
    ImagePin(u.service, u.repo, u.latestTag, u.latestDigest, now)
  }

  /** Checking a freshly written pin again finds the tag and digest it carries, also when no tag of
      the list is numeric and the pinned tag was kept. */
  lemma RecheckedPin(env: Env, at: nat, i: nat, at': nat, i': nat, pin: ImagePin, now: DateTime)
    requires IsStable(env.registry) && CheckPin(env, at, i, pin).Ok?
    ensures var again := CheckPin(env, at', i', Repinned(CheckPin(env, at, i, pin).value, now));
            again.Ok? && !UpdateAvailable(again.value)
  {
    hide PickLatestSemver;
    assert env.registry.tags(at, i, pin.repo) == env.registry.tags(at', i', pin.repo);
    var tag := LatestTag(env.registry.tags(at, i, pin.repo).value, pin);
    assert env.registry.digest(at, i, pin.repo, tag) == env.registry.digest(at', i', pin.repo, tag);
  }

  lemma {:induction false} RecheckedFrom(env: Env, at: nat, at': nat, pins: seq<ImagePin>, ps: seq<ImagePin>,
                                        now: DateTime, i: nat)
    requires IsStable(env.registry) && i <= |pins| == |ps|
    requires forall j :: 0 <= j < |pins| ==>
               CheckPin(env, at, j, pins[j]).Ok? && ps[j] == Repinned(CheckPin(env, at, j, pins[j]).value, now)
    ensures CheckPins(env, at', ps, i).Ok? && !AnyUpdate(CheckPins(env, at', ps, i).value)
    decreases |ps| - i
  {
    hide IsStable, CheckPin;
    if i < |ps| {
      RecheckedPin(env, at, i, at', i, pins[i], now);
      RecheckedFrom(env, at, at', pins, ps, now, i + 1);
    }
  }

  lemma RecheckedPins(env: Env, at: nat, at': nat, pins: seq<ImagePin>, now: DateTime)
    requires IsStable(env.registry) && CheckPins(env, at, pins, 0).Ok?
    ensures var again := CheckPins(env, at', PinsOf(CheckPins(env, at, pins, 0).value, now), 0);
            again.Ok? && !AnyUpdate(again.value)
  {
    hide IsStable, CheckPin;
    var us := CheckPins(env, at, pins, 0).value;
    CheckPinsPoint(env, at, pins, 0);
    assert forall j :: 0 <= j < |pins| ==> CheckPin(env, at, j, pins[j]) == Ok(us[j - 0]);
    RecheckedFrom(env, at, at', pins, PinsOf(us, now), now, 0);
  }

  lemma SameCheck(env: Env, at: nat, at': nat, pins: seq<ImagePin>, i: nat)
    requires IsStable(env.registry) && i <= |pins|
    ensures CheckPins(env, at, pins, i) == CheckPins(env, at', pins, i)
    decreases |pins| - i
  {
    hide PickLatestSemver;
    if i < |pins| {
      var pin := pins[i];
      assert env.registry.tags(at, i, pin.repo) == env.registry.tags(at', i, pin.repo);
      if env.registry.tags(at, i, pin.repo).Some? {
        var tag := LatestTag(env.registry.tags(at, i, pin.repo).value, pin);
        assert env.registry.digest(at, i, pin.repo, tag) == env.registry.digest(at', i, pin.repo, tag);
      }
      SameCheck(env, at, at', pins, i + 1);
    }
  }

  /** Why reading a state file that is there and readable can fail: the host cannot be reached, or a
      test reported the file as missing. */
  predicate IsMissed(e: Error, w: World, v: World) {
    IsTransportError(e) || (e.RelayNotInstalled? && !SeesFiles(w, v))
  }

  /** The check has nothing more to find. */
  predicate IsSettled(env: Env, install: string, v: World) {
    var c := CheckUpdates(env, v, install);
    if c.r.Ok? then !AnyUpdate(c.r.value) else IsMissed(c.r.error, v, c.w)
  }

  /** Nor will it ever have, as long as the host stays as it is. */
  ghost predicate StaysSettled(env: Env, install: string, v: World) {
    forall u :: Idle(v, u) ==> IsSettled(env, install, u)
  }

  /** A file test finds the file exactly when it is there and the test does not hide it. */
  lemma FileTestFinds(env: Env, w: World, path: string)
    ensures var t := ExitsZero(env, w, TestFileExists(path));
            if t.r.Ok? then t.r.value <==> Locate(path) in w.fs.files && SeesFiles(w, t.w) else IsTransportError(t.r.error)
  {
    hide Locate, Accepts;
    var t := ExitsZero(env, w, TestFileExists(path));
    assert Script(TestFileExists(path)) == [TestFile(path)];
    if t.r.Ok? {
      var e := t.w.trail[|w.trail|];
      assert |t.w.trail| == |w.trail| + 1 && e.prim == TestFile(path) && e.fs == w.fs;
      assert SeesFiles(w, t.w) <==> !HidesFile(e);
    }
  }

  lemma ReadStateFinds(env: Env, w: World, install: string)
    requires At(w.fs, PlaceOf(install, State)).Some?
    requires env.toml.decode(At(w.fs, PlaceOf(install, State)).value).Some?
    ensures ReadState(env, w, install).r.Err? ==> IsTransportError(ReadState(env, w, install).r.error)
  {
    hide Do, Succeeds, Locate, StatePath, PathOf;
    HelpersNamePlaces(install, Instant(0, 1970, 1, 1, 0, 0, 0));
    var c := CatFile(StatePath(install));
    DoErrors(env.remote, w, c);
    SucceedsIsOk(env.remote, w, c);
    if ExecOk(env.remote, w, c).r.Ok? {
      CatSuccess(env.remote, w, StatePath(install));
    }
  }

  /** A state file that is there and readable is found, unless it is missed. */
  lemma LoadStateFinds(env: Env, w: World, install: string)
    requires At(w.fs, PlaceOf(install, State)).Some?
    requires env.toml.decode(At(w.fs, PlaceOf(install, State)).value).Some?
    ensures var l := LoadState(env, w, install);
            if l.r.Ok? then Some(l.r.value) == env.toml.decode(At(w.fs, PlaceOf(install, State)).value)
            else IsMissed(l.r.error, w, l.w)
  {
    hide ExitsZero, ReadState, PathOf, Locate, StatePath, IsTransportError, SeesFiles;
    HelpersNamePlaces(install, Instant(0, 1970, 1, 1, 0, 0, 0));
    var p := StatePath(install);
    FileTestFinds(env, w, p);
    ExitsZeroIdle(env, w, TestFileExists(p));
    var t := ExitsZero(env, w, TestFileExists(p));
    ReadStateFinds(env, t.w, install);
    if ReadState(env, t.w, install).r.Ok? {
      ReadStateReads(env, t.w, install);
    }
  }

  lemma ChangedSettles(env: Env, v: World, install: string, images: seq<ImageUpdate>, at: nat,
                       pins: seq<ImagePin>, now: DateTime, newState: RelayState)
    requires IsStable(env.registry) && IsFaithful(env.toml)
    requires CheckPins(env, at, pins, 0) == Ok(images) && newState.images == PinsOf(images, now)
    requires At(v.fs, PlaceOf(install, State)) == Some(env.toml.encode(newState))
    ensures StaysSettled(env, install, v)
  {
    hide LoadState, PlaceOf, IsStable, CheckPins, IsMissed;
    forall u | Idle(v, u)
      ensures IsSettled(env, install, u)
    {
      var s := LoadState(env, u, install);
      LoadStateFinds(env, u, install);
      if s.r.Ok? {
        RecheckedPins(env, at, |s.w.trail|, pins, now);
      }
    }
  }

  lemma UnchangedSettles(env: Env, w: World, v: World, install: string)
    requires IsStable(env.registry) && Idle(w, v)
    requires CheckUpdates(env, w, install).r.Ok? && !AnyUpdate(CheckUpdates(env, w, install).r.value)
    ensures IsSettled(env, install, v)
  {
    hide LoadState, PlaceOf, IsStable, CheckPins, IsMissed;
    var s, t := LoadState(env, w, install), LoadState(env, v, install);
    LoadStateReads(env, w, install);
    IdleSameFs(w, v);
    LoadStateFinds(env, v, install);
    if t.r.Ok? {
      SameCheck(env, |s.w.trail|, |t.w.trail|, s.r.value.images, 0);
    }
  }

  lemma UnchangedStaysSettled(env: Env, w: World, v: World, install: string)
    requires IsStable(env.registry) && Idle(w, v)
    requires CheckUpdates(env, w, install).r.Ok? && !AnyUpdate(CheckUpdates(env, w, install).r.value)
    ensures StaysSettled(env, install, v)
  {
    hide CheckUpdates, IsStable, Idle, IsSettled;
    forall u | Idle(v, u)
      ensures IsSettled(env, install, u)
    {
      IdleTransitive(w, v, u);
      UnchangedSettles(env, w, u, install);
    }
  }

  /** An update from `v` that had nothing to do: no change reported, or it was refused or cut off. */
  predicate NothingToDo(v: World, u: Run<UpdateReport>) {
    if u.r.Ok? then !u.r.value.changed else IsMissed(u.r.error, v, u.w) || u.r.error.RelayUpdateNotConfirmed?
  }

  lemma CheckReadState(env: Env, v: World, install: string)
    requires CheckUpdates(env, v, install).r.Ok?
    ensures At(v.fs, PlaceOf(install, State)).Some?
    ensures env.toml.decode(At(v.fs, PlaceOf(install, State)).value).Some?
  {
    hide LoadState, PlaceOf, CheckPins;
    LoadStateReads(env, v, install);
  }

  lemma SettledUpdateIdle(env: Env, v: World, install: string, opts: UpdateOptions)
    requires IsSettled(env, install, v)
    ensures var u := Update(env, v, install, opts); Idle(v, u.w) && NothingToDo(v, u)
  {
    hide CheckUpdates, LoadState, Idle, Replace, IsTransportError, PlaceOf, SeesFiles;
    CheckUpdatesIdle(env, v, install);
    var c := CheckUpdates(env, v, install);
    IdleSelf(v);
    LoadStateIdle(env, c.w, install);
    if c.r.Ok? {
      CheckReadState(env, v, install);
      IdleSameFs(v, c.w);
      LoadStateFinds(env, c.w, install);
      SeesLater(v, c.w, LoadState(env, c.w, install).w);
    }
    IdleTransitive(v, c.w, LoadState(env, c.w, install).w);
  }

  lemma SeesLater(u: World, v: World, w: World)
    requires Idle(u, v) && Idle(v, w)
    ensures SeesFiles(u, w) ==> SeesFiles(v, w)
    ensures SeesDirs(u, w) ==> SeesDirs(u, v) && SeesDirs(v, w)
  {
    hide HidesDir, HidesFile;
    if SeesDirs(u, w) {
      forall i | |u.trail| <= i < |v.trail|
        ensures !HidesDir(v.trail[i])
      {
        assert w.trail[i] == v.trail[i];
      }
    }
  }

  /** The calls of a plan leave the install alone: no bootstraps, or none that misses the directory. */
  predicate SeesInstall(env: Env, v: World, install: string, ops: seq<Op>) {
    || (forall op :: op in ops ==> !op.BootstrapOp?)
    || (Locate(install) in v.fs.dirs && SeesDirs(v, RunOps(env, v, install, ops)))
  }

  lemma SettledOpIdle(env: Env, v: World, install: string, op: Op)
    requires IsSettled(env, install, v)
    requires op.BootstrapOp? ==> Locate(install) in v.fs.dirs && SeesDirs(v, RunOp(env, v, install, op))
    ensures Idle(v, RunOp(env, v, install, op))
  {
    hide Bootstrap, CheckUpdates, Update, IsSettled, Idle, SeesDirs, Locate;
    match op
    case BootstrapOp(boot) => ExistingNeverWritten(env, v, install, boot);
    case CheckOp => CheckUpdatesIdle(env, v, install);
    case UpdateOp(update) => SettledUpdateIdle(env, v, install, update);
  }

  lemma RunOpExtends(env: Env, v: World, install: string, op: Op)
    ensures v.trail <= RunOp(env, v, install, op).trail
  {
    hide Bootstrap, CheckUpdates, Update;
    match op
    case BootstrapOp(boot) => BootstrapExtends(env, v, install, boot);
    case CheckOp => CheckUpdatesIdle(env, v, install);
    case UpdateOp(update) => UpdateExtends(env, v, install, update);
  }

  lemma {:induction false} RunOpsExtends(env: Env, v: World, install: string, ops: seq<Op>)
    ensures v.trail <= RunOps(env, v, install, ops).trail
    decreases |ops|
  {
    hide RunOp;
    if ops != [] {
      RunOpExtends(env, v, install, ops[0]);
      RunOpsExtends(env, RunOp(env, v, install, ops[0]), install, ops[1..]);
    }
  }

  lemma UpdateExtends(env: Env, v: World, install: string, opts: UpdateOptions)
    ensures v.trail <= Update(env, v, install, opts).w.trail
  {
    hide Update, KeepsOn, PlaceOf, UpdateTarget;
    LiveOldOrNew(env, v, install, opts, State);
    var u, target := Update(env, v, install, opts).w, UpdateTarget(env, v, install, opts);
    KeepsExtends(env.remote, v, u, PlaceOf(install, State), target, State);
  }

  lemma KeepsExtends(s: Schedule, w: World, v: World, l: Location, target: Option<Target>, p: Place)
    requires KeepsOn(s, w, v, l, target, p)
    ensures w.trail <= v.trail
  {
  }

  lemma BootstrapExtends(env: Env, v: World, install: string, opts: BootstrapOptions)
    ensures v.trail <= Bootstrap(env, v, install, opts).w.trail
  {
    hide Survey, Bootstrap;
    BootstrapGoesOn(env, v, install, opts);
  }

  lemma FreshExtends(env: Env, w: World, install: string, opts: BootstrapOptions, os: OsKind)
    ensures w.trail <= Fresh(env, w, install, opts, os).w.trail
  {
    hide RunAll, HealthCheck, WithKey, InstallCommands, RenderPins, ResolvePins, Idle;
    if Prepared(env, w, opts).Some? {
      var (state, compose) := Prepared(env, w, opts).value;
      var cs := InstallCommands(install, compose, opts.envContents, env.toml.encode(state));
      RunAllExtends(env.remote, w, cs);
      var t := RunAll(env.remote, w, cs);
      HealthCheckIdle(env, t.w);
      IdlePrefix(t.w, HealthCheck(env, t.w).w);
      WithKeyIdle(env, HealthCheck(env, t.w).w, install, state, false, os);
      IdlePrefix(HealthCheck(env, t.w).w, WithKey(env, HealthCheck(env, t.w).w, install, state, false, os).w);
    }
  }

  lemma SeesFirst(u: World, v: World, w: World)
    requires SeesDirs(u, w) && u.trail <= v.trail <= w.trail
    ensures SeesDirs(u, v) && SeesDirs(v, w)
  {
    hide HidesDir;
    forall i | |u.trail| <= i < |v.trail|
      ensures !HidesDir(v.trail[i])
    {
      assert w.trail[i] == v.trail[i];
    }
  }

  /** On a settled host no call of a plan does anything. */
  lemma {:induction false} SettledForever(env: Env, v: World, install: string, ops: seq<Op>)
    requires StaysSettled(env, install, v) && SeesInstall(env, v, install, ops)
    ensures Idle(v, RunOps(env, v, install, ops)) && StaysSettled(env, install, RunOps(env, v, install, ops))
    decreases |ops|
  {
    hide RunOp, Idle, IsSettled, Locate, SeesDirs;
    IdleSelf(v);
    if ops != [] {
      var t, x := RunOp(env, v, install, ops[0]), RunOps(env, v, install, ops);
      assert ops[0] in ops && forall op :: op in ops[1..] ==> op in ops;
      RunOpExtends(env, v, install, ops[0]);
      RunOpsExtends(env, t, install, ops[1..]);
      if SeesDirs(v, x) {
        SeesFirst(v, t, x);
      }
      SettledOpIdle(env, v, install, ops[0]);
      IdleSameFs(v, t);
      SettledOn(env, install, v, t);
      SettledForever(env, t, install, ops[1..]);
      IdleTransitive(v, t, x);
    }
  }

  lemma SettledOn(env: Env, install: string, v: World, u: World)
    requires StaysSettled(env, install, v) && Idle(v, u)
    ensures StaysSettled(env, install, u)
  {
    hide Idle, IsSettled;
    forall x | Idle(u, x)
      ensures IsSettled(env, install, x)
    {
      IdleTransitive(v, u, x);
    }
  }

  /** Convergence: with an unchanged registry, once an update succeeded no later call does anything,
      however many there are and whatever their options: a check finds nothing, an update changes
      nothing on the host and reports no change. Only a missing confirmation, an unreachable host or a
      test that hides the state file can make it fail. */
  lemma UpdateConverges(env: Env, w: World, install: string, opts: UpdateOptions, ops: seq<Op>, again: UpdateOptions)
    requires IsStable(env.registry) && IsFaithful(env.toml) && Update(env, w, install, opts).r.Ok?
    requires SeesInstall(env, Update(env, w, install, opts).w, install, ops)
    ensures var v := Update(env, w, install, opts).w;
            var x := RunOps(env, v, install, ops);
            var u := Update(env, x, install, again);
            Idle(v, x) && IsSettled(env, install, x) && Idle(x, u.w) && NothingToDo(x, u)
  {
    hide CheckUpdates, LoadState, Replace, Idle, IsSettled, IsStable, IsFaithful, PlaceOf, StaysSettled, RunOps, SeesInstall;
    var v := Update(env, w, install, opts).w;
    CheckUpdatesIdle(env, w, install);
    var c := CheckUpdates(env, w, install);
    if AnyUpdate(c.r.value) {
      ReplaceSettles(env, w, install, opts);
    } else {
      LoadStateIdle(env, c.w, install);
      IdleTransitive(w, c.w, v);
      UnchangedStaysSettled(env, w, v, install);
    }
    SettledForever(env, v, install, ops);
    SettledNow(env, install, RunOps(env, v, install, ops));
    SettledUpdateIdle(env, RunOps(env, v, install, ops), install, again);
  }

  lemma SettledNow(env: Env, install: string, v: World)
    requires StaysSettled(env, install, v)
    ensures IsSettled(env, install, v)
  {
    hide Idle, IsSettled;
    IdleSelf(v);
  }

  lemma ReplaceSettles(env: Env, w: World, install: string, opts: UpdateOptions)
    requires IsStable(env.registry) && IsFaithful(env.toml)
    requires CheckUpdates(env, w, install).r.Ok?
    requires var c := CheckUpdates(env, w, install); Replace(env, c.w, install, opts, c.r.value).r.Ok?
    ensures var c := CheckUpdates(env, w, install); StaysSettled(env, install, Replace(env, c.w, install, opts, c.r.value).w)
  {
    hide LoadState, Replace, PlaceOf, IsStable, IsFaithful, CheckPins, StaysSettled, HealthyAtTheEnd, RenderPins;
    var s, c := LoadState(env, w, install), CheckUpdates(env, w, install);
    var t := Replace(env, c.w, install, opts, c.r.value);
    ReplaceSucceeds(env, c.w, install, opts, c.r.value);
    ChangedSettles(env, t.w, install, c.r.value, |s.w.trail|, s.r.value.images, env.wall(|c.w.trail|), t.r.value.newState);
  }

  /** After a pull or start that failed, with an unchanged registry, no later call tries again: the
      state file already names the new images, so every later update, whatever its options and whatever
      was called in between, only reads and reports no change, and the last compose text started stays
      the old one. */
  lemma FailedStartNeverRetried(env: Env, w: World, install: string, opts: UpdateOptions, ops: seq<Op>, again: UpdateOptions)
    requires IsStable(env.registry) && IsFaithful(env.toml)
    requires StartFails(env, w, install, opts)
    requires SeesInstall(env, Update(env, w, install, opts).w, install, ops)
    ensures var t := Update(env, w, install, opts);
            var x := RunOps(env, t.w, install, ops);
            var u := Update(env, x, install, again);
            && Idle(t.w, x) && IsSettled(env, install, x) && Idle(x, u.w) && NothingToDo(x, u)
            && t.r.Err? && (t.r.error.RemoteCommandFailed? ==> u.w.running == w.running)
  {
    hide LoadState, Update, Written, Secured, RunAll, RenderPins, PlaceOf, IsStable, IsFaithful, CheckPins, IsSettled, Idle,
         StaysSettled, RunOps, SeesInstall, NothingToDo;
    FailedStartLeavesNewFiles(env, w, install, opts);
    var t := Update(env, w, install, opts);
    var (v, images) := Decided(env, w, install, opts).value;
    var s, now := LoadState(env, w, install), env.wall(|v.trail|);
    var l := LoadState(env, Secured(env, v, install, opts).w, install);
    var newState := ApplyUpdate(l.r.value, PinsOf(images, now), now);
    ChangedSettles(env, t.w, install, images, |s.w.trail|, s.r.value.images, now, newState);
    var x := RunOps(env, t.w, install, ops);
    SettledForever(env, t.w, install, ops);
    SettledNow(env, install, x);
    SettledUpdateIdle(env, x, install, again);
    IdleSameRun(t.w, x);
    IdleSameRun(x, Update(env, x, install, again).w);
  }

  // ---------------------------------------------------------------------------
  // Bootstrap
  // ---------------------------------------------------------------------------

  /** Bootstrap over an existing directory never writes, whatever is in it, unless a test hides it. */
  lemma ExistingNeverWritten(env: Env, w: World, install: string, opts: BootstrapOptions)
    requires Locate(install) in w.fs.dirs && SeesDirs(w, Bootstrap(env, w, install, opts).w)
    ensures Idle(w, Bootstrap(env, w, install, opts).w)
  {
    hide Survey, Prepared, Bootstrap, Idle, SeesDirs, Locate;
    SurveyIdle(env, w, install, opts.osHint);
    BootstrapGoesOn(env, w, install, opts);
    SeesFirst(w, Survey(env, w, install, opts.osHint).w, Bootstrap(env, w, install, opts).w);
    ExistingWritten(env, w, install, opts);
  }

  lemma BootstrapGoesOn(env: Env, w: World, install: string, opts: BootstrapOptions)
    ensures var s := Survey(env, w, install, opts.osHint);
            w.trail <= s.w.trail <= Bootstrap(env, w, install, opts).w.trail
  {
    hide Survey, Existing, Fresh;
    var s := Survey(env, w, install, opts.osHint);
    SurveyIdle(env, w, install, opts.osHint);
    if s.r.Ok? {
      ExistingIdle(env, s.w, install, s.r.value.0);
      FreshExtends(env, s.w, install, opts, s.r.value.0);
    }
  }

  /** Exactly when it does: the survey's test reported the directory as missing, every digest resolved
      and the compose text could be rendered. */
  lemma ExistingWritten(env: Env, w: World, install: string, opts: BootstrapOptions)
    requires Locate(install) in w.fs.dirs
    ensures var s := Survey(env, w, install, opts.osHint);
            Idle(w, Bootstrap(env, w, install, opts).w) <==>
            s.r.Err? || SeesDirs(w, s.w) || Prepared(env, s.w, opts).None?
  {
    hide Survey, Existing, Fresh, Prepared, Locate, Idle, SeesDirs;
    var s := Survey(env, w, install, opts.osHint);
    SurveyIdle(env, w, install, opts.osHint);
    SurveyFinds(env, w, install, opts.osHint);
    SurveyAccepted(env, w, install, opts.osHint);
    IdleSameFs(w, s.w);
    IdlePrefix(w, s.w);
    if s.r.Ok? {
      var os := s.r.value.0;
      ExistingIdle(env, s.w, install, os);
      IdleTransitive(w, s.w, Existing(env, s.w, install, os).w);
      if Prepared(env, s.w, opts).Some? {
        FreshWrites(env, s.w, install, opts, os);
        NotIdle(w, s.w, Fresh(env, s.w, install, opts, os).w);
      } else {
        FreshUnprepared(env, s.w, install, opts, os);
      }
    }
  }

  lemma SurveyAccepted(env: Env, w: World, install: string, hint: Option<OsKind>)
    ensures Survey(env, w, install, hint).r.Ok? ==> IsRemotePath(install)
  {
    hide DetectOs, EnsureDockerStack, IsRemotePath, RunScript;
  }

  lemma FreshUnprepared(env: Env, w: World, install: string, opts: BootstrapOptions, os: OsKind)
    requires Prepared(env, w, opts).None?
    ensures Fresh(env, w, install, opts, os).w == w
  {
    hide RunAll, HealthCheck, WithKey, RenderPins, ResolvePins;
  }

  lemma NotIdle(u: World, v: World, w: World)
    requires u.trail <= v.trail <= w.trail && |v.trail| < |w.trail| && !Passive(w.trail[|v.trail|])
    ensures !Idle(u, w)
  {
  }

  /** A fresh install starts with a directory made or at least attempted. */
  lemma FreshWrites(env: Env, w: World, install: string, opts: BootstrapOptions, os: OsKind)
    requires Prepared(env, w, opts).Some? && IsRemotePath(install)
    ensures var v := Fresh(env, w, install, opts, os).w;
            w.trail <= v.trail && |w.trail| < |v.trail| && v.trail[|w.trail|].prim == Mkdir(install)
  {
    hide RunAll, HealthCheck, WithKey, RenderPins, ResolvePins, InstallCommands, IsRemotePath, Idle;
    var (state, compose) := Prepared(env, w, opts).value;
    var t := RunAll(env.remote, w, InstallCommands(install, compose, opts.envContents, env.toml.encode(state)));
    InstallStarts(env.remote, w, install, compose, opts.envContents, env.toml.encode(state));
    HealthCheckIdle(env, t.w);
    var h := HealthCheck(env, t.w);
    WithKeyIdle(env, h.w, install, state, false, os);
    IdleTransitive(t.w, h.w, WithKey(env, h.w, install, state, false, os).w);
    IdlePrefix(t.w, h.w);
    IdlePrefix(t.w, WithKey(env, h.w, install, state, false, os).w);
  }

  lemma IdlePrefix(w: World, v: World)
    requires Idle(w, v)
    ensures w.trail <= v.trail
  {
  }

  lemma InstallStarts(s: Schedule, w: World, install: string, compose: Bytes, envContents: Bytes, state: Bytes)
    requires IsRemotePath(install)
    ensures var v := RunAll(s, w, InstallCommands(install, compose, envContents, state)).w;
            w.trail <= v.trail && |w.trail| < |v.trail| && v.trail[|w.trail|].prim == Mkdir(install)
  {
    hide RunAll, Do, IsRemotePath, ComposePath, EnvPath, StatePath, DataPath, BackupsPath;
    var cs := InstallCommands(install, compose, envContents, state);
    MkdirStep(s, w, install);
    var t := ExecOk(s, w, cs[0]);
    RunAllParts(s, w, cs);
    RunAllExtends(s, t.w, cs[1..]);
  }

  lemma MkdirStep(s: Schedule, w: World, path: string)
    requires IsRemotePath(path)
    ensures var v := Do(s, w, MkdirP(path)).w;
            w.trail <= v.trail && |v.trail| == |w.trail| + 1 && v.trail[|w.trail|].prim == Mkdir(path)
  {
    hide IsRemotePath, Apply;
    assert Script(MkdirP(path)) == [Mkdir(path)];
  }

  lemma {:induction false} RunAllExtends(s: Schedule, w: World, cs: seq<Cmd>)
    ensures w.trail <= RunAll(s, w, cs).w.trail
    decreases |cs|
  {
    hide Do;
    if cs != [] {
      DoExtends(s, w, cs[0]);
      RunAllExtends(s, ExecOk(s, w, cs[0]).w, cs[1..]);
    }
  }

  /** What a fresh bootstrap decides before it touches the host. */
  function Prepared(env: Env, w: World, opts: BootstrapOptions): Option<(RelayState, Bytes)> {
    var now := env.wall(|w.trail|);
    match ResolvePins(env, |w.trail|, opts, now, 0)
    case Err(_) => None
    case Ok(pins) =>
      match RenderPins(opts.template, pins)
      case Err(_) => None
      case Ok(compose) => Some((NewBootstrap(now, opts.version, pins), compose))
  }

  /** No write before every digest is resolved and the compose text is rendered: if either fails,
      or the survey does, the host is as it was at every step. */
  lemma NothingWrittenUnprepared(env: Env, w: World, install: string, opts: BootstrapOptions)
    requires var s := Survey(env, w, install, opts.osHint);
             s.r.Err? || s.r.value.1 || Prepared(env, s.w, opts).None?
    ensures Idle(w, Bootstrap(env, w, install, opts).w)
  {
    hide Survey, Existing, Idle, RunAll, HealthCheck, WithKey, RenderPins, ResolvePins;
    var s := Survey(env, w, install, opts.osHint);
    SurveyIdle(env, w, install, opts.osHint);
    if s.r.Ok? && s.r.value.1 {
      ExistingIdle(env, s.w, install, s.r.value.0);
      IdleTransitive(w, s.w, Existing(env, s.w, install, s.r.value.0).w);
    }
  }

  /** The writing half of a fresh install. */
  function WritingCommands(install: string, compose: Bytes, envContents: Bytes, state: Bytes): seq<Cmd> {
    [WriteFile(ComposePath(install), compose), WriteFile(EnvPath(install), envContents),
     WriteFile(StatePath(install), state), ComposeUp(install)]
  }

  lemma WritingHolds(s: Schedule, w: World, install: string, compose: Bytes, envContents: Bytes, state: Bytes)
    requires RunAll(s, w, WritingCommands(install, compose, envContents, state)).r.Ok?
    ensures Runs(RunAll(s, w, WritingCommands(install, compose, envContents, state)).w, install, Some(compose), Some(state))
  {
    hide ExecOk, PathOf, PlaceOf, RunAll, Succeeds;
    HelpersNamePlaces(install, Instant(0, 1970, 1, 1, 0, 0, 0));
    var cs := WritingCommands(install, compose, envContents, state);
    var c0, c1, c2, c3 := cs[0], cs[1], cs[2], cs[3];
    assert cs[1..] == [c1, c2, c3] && [c1, c2, c3][1..] == [c2, c3] && [c2, c3][1..] == [c3] && [c3][1..] == [];
    RunAllStep(s, w, cs);
    WritePlaces(s, w, install, Compose, compose, State);
    var w1 := ExecOk(s, w, c0).w;
    RunAllStep(s, w1, [c1, c2, c3]);
    WritePlaces(s, w1, install, Place.Env, envContents, Compose);
    var w2 := ExecOk(s, w1, c1).w;
    RunAllStep(s, w2, [c2, c3]);
    WritePlaces(s, w2, install, State, state, Compose);
    var w3 := ExecOk(s, w2, c2).w;
    RunAllStep(s, w3, [c3]);
    UpPlaces(s, w3, install);
    RunAllNone(s, ExecOk(s, w3, c3).w);
  }

  lemma InstallHolds(s: Schedule, w: World, install: string, compose: Bytes, envContents: Bytes, state: Bytes)
    requires RunAll(s, w, InstallCommands(install, compose, envContents, state)).r.Ok?
    ensures var v := RunAll(s, w, InstallCommands(install, compose, envContents, state)).w;
            Runs(v, install, Some(compose), Some(state)) && Locate(install) in v.fs.dirs
  {
    hide ExecOk, RunAll, Succeeds, Locate, PlaceOf, ComposePath, EnvPath, StatePath, DataPath, BackupsPath;
    var c0, c1, c2 := MkdirP(install), MkdirP(DataPath(install)), MkdirP(BackupsPath(install));
    var rest := WritingCommands(install, compose, envContents, state);
    assert InstallCommands(install, compose, envContents, state) == [c0] + ([c1] + ([c2] + rest));
    InstallRemovesNothing(install, compose, envContents, state);
    hide WritingCommands, InstallCommands;
    RunAllFirstStep(s, w, c0, [c1] + ([c2] + rest));
    var w1 := ExecOk(s, w, c0).w;
    MkdirSuccess(s, w, install);
    RunAllDir(s, w1, [c1] + ([c2] + rest), Locate(install));
    RunAllFirstStep(s, w1, c1, [c2] + rest);
    var w2 := ExecOk(s, w1, c1).w;
    RunAllFirstStep(s, w2, c2, rest);
    WritingHolds(s, ExecOk(s, w2, c2).w, install, compose, envContents, state);
  }

  /** A full healthy round after the first `from` steps, and after it nothing but reads. */
  predicate HealthyThenReads(trail: seq<Event>, from: nat) {
    exists k: nat :: from + 2 <= k <= |trail| && EndsHealthy(trail[..k]) && forall i :: k <= i < |trail| ==> Passive(trail[i])
  }

  lemma StaysHealthy(w: World, v: World, from: nat)
    requires EndsHealthy(w.trail) && Idle(w, v) && from + 2 <= |w.trail|
    ensures HealthyThenReads(v.trail, from)
  {
    hide EndsHealthy, Passive;
    assert v.trail[..|w.trail|] == w.trail;
  }

  /** A fresh bootstrap that succeeds has installed what it prepared, and a full probe round passed. */
  lemma FreshSucceeds(env: Env, w: World, install: string, opts: BootstrapOptions, os: OsKind)
    requires Fresh(env, w, install, opts, os).r.Ok?
    ensures var t := Fresh(env, w, install, opts, os);
            && Prepared(env, w, opts).Some? && !t.r.value.alreadyInstalled
            && var (state, compose) := Prepared(env, w, opts).value;
            && t.r.value.state == state
            && Runs(t.w, install, Some(compose), Some(env.toml.encode(state)))
            && Locate(install) in t.w.fs.dirs && HealthyThenReads(t.w.trail, |w.trail|)
  {
    hide EndsHealthy, RunAll, HealthCheck, RenderPins, ResolvePins, InstallCommands, Locate, PlaceOf, WithKey, Idle;
    var (state, compose) := Prepared(env, w, opts).value;
    InstallHolds(env.remote, w, install, compose, opts.envContents, env.toml.encode(state));
    var t := RunAll(env.remote, w, InstallCommands(install, compose, opts.envContents, env.toml.encode(state)));
    HealthCheckIdle(env, t.w);
    var h := HealthCheck(env, t.w);
    IdleSameRun(t.w, h.w);
    WithKeyIdle(env, h.w, install, state, false, os);
    IdleSameRun(h.w, WithKey(env, h.w, install, state, false, os).w);
    HealthCheckEndsHealthy(env, t.w);
    StaysHealthy(h.w, WithKey(env, h.w, install, state, false, os).w, |w.trail|);
    WithKeyReports(env, h.w, install, state, false, os);
  }

  lemma WithKeyReports(env: Env, w: World, install: string, state: RelayState, already: bool, os: OsKind)
    ensures var t := WithKey(env, w, install, state, already, os);
            t.r.Ok? && t.r.value.state == state && t.r.value.alreadyInstalled == already
  {
    hide ExecOk;
  }

  lemma IdleSameRun(w: World, v: World)
    requires Idle(w, v)
    ensures v.fs == w.fs && v.running == w.running
  {
  }

  /** Why a bootstrap may not get as far as a verdict about the install directory. */
  predicate IsSurveyError(e: Error) {
    IsTransportError(e) || e.RelayUnsupportedOs? || e.DockerEngineNotInstalled? || e.DockerComposeV1Detected?
  }

  lemma SurveyErrors(env: Env, w: World, install: string, hint: Option<OsKind>)
    ensures Survey(env, w, install, hint).r.Err? ==> IsSurveyError(Survey(env, w, install, hint).r.error)
  {
    hide Do, DetectOs, EnsureDockerStack;
    DetectErrors(env, w, hint);
    var o := DetectOs(env, w, hint);
    StackErrors(env, o.w);
    DoErrors(env.remote, EnsureDockerStack(env, o.w).w, TestDirExists(install));
  }

  lemma DetectErrors(env: Env, w: World, hint: Option<OsKind>)
    ensures DetectOs(env, w, hint).r.Err? ==> IsSurveyError(DetectOs(env, w, hint).r.error)
  {
    hide Do;
    DoErrors(env.remote, w, ReadOsRelease);
  }

  lemma StackErrors(env: Env, w: World)
    ensures EnsureDockerStack(env, w).r.Err? ==> IsSurveyError(EnsureDockerStack(env, w).r.error)
  {
    hide Do;
    DoErrors(env.remote, w, CheckDockerPresent);
    var d := Do(env.remote, w, CheckDockerPresent);
    DoErrors(env.remote, d.w, CheckComposeV2);
    DoErrors(env.remote, Do(env.remote, d.w, CheckComposeV2).w, CheckComposeV1);
  }

  lemma LoadStateMisses(env: Env, w: World, install: string)
    requires At(w.fs, PlaceOf(install, State)).None?
    ensures var r := LoadState(env, w, install).r; r.Err? && (r.error.RelayNotInstalled? || IsTransportError(r.error))
  {
    hide ExitsZero, ReadState, Locate, StatePath, PathOf, IsTransportError;
    HelpersNamePlaces(install, Instant(0, 1970, 1, 1, 0, 0, 0));
    FileTestFinds(env, w, StatePath(install));
    ExitsZeroIdle(env, w, TestFileExists(StatePath(install)));
  }

  lemma ReadStateErrors(env: Env, w: World, install: string)
    ensures ReadState(env, w, install).r.Err? ==>
              IsTransportError(ReadState(env, w, install).r.error) || ReadState(env, w, install).r.error.ConfigParse?
  {
    hide Do;
    DoErrors(env.remote, w, CatFile(StatePath(install)));
  }

  lemma FilesTransitive(u: World, v: World, w: World)
    requires SeesFiles(u, v) && SeesFiles(v, w)
    ensures SeesFiles(u, w)
  {
    hide HidesFile;
    forall i | |u.trail| <= i < |w.trail|
      ensures !HidesFile(w.trail[i])
    {
      if i < |v.trail| {
        assert w.trail[i] == v.trail[i];
      }
    }
  }

  lemma ReadStateSees(env: Env, w: World, install: string)
    ensures SeesFiles(w, ReadState(env, w, install).w)
  {
    hide Do;
    DoSees(env.remote, w, CatFile(StatePath(install)));
  }

  lemma WithKeySees(env: Env, w: World, install: string, state: RelayState, already: bool, os: OsKind)
    ensures SeesFiles(w, WithKey(env, w, install, state, already, os).w)
  {
    hide Do;
    DoSees(env.remote, w, CatFile(KeyPath(install)));
  }

  /** The state file is there and no test on the way hid it. */
  predicate IsSeen(install: string, w: World, v: World) {
    At(w.fs, PlaceOf(install, State)).Some? && SeesFiles(w, v)
  }

  /** The verdict about an existing directory, whatever is in it: foreign exactly without a state file, or
      when the test hid it; otherwise what the state file says, or that it cannot be read; or the host
      could not be reached. */
  lemma ExistingVerdict(env: Env, w: World, install: string, os: OsKind)
    ensures IsJudged(env, install, w, Existing(env, w, install, os))
  {
    hide ExitsZero, ReadState, WithKey, StatePath, PathOf, Locate, SeesFiles, IsTransportError;
    HelpersNamePlaces(install, Instant(0, 1970, 1, 1, 0, 0, 0));
    var p := StatePath(install);
    FileTestFinds(env, w, p);
    ExitsZeroIdle(env, w, TestFileExists(p));
    var t := ExitsZero(env, w, TestFileExists(p));
    IdleSameFs(w, t.w);
    if t.r == Ok(true) {
      var s := ReadState(env, t.w, install);
      ReadStateSees(env, t.w, install);
      FilesTransitive(w, t.w, s.w);
      ReadStateErrors(env, t.w, install);
      if s.r.Ok? {
        ReadStateReads(env, t.w, install);
        WithKeyReports(env, s.w, install, s.r.value, true, os);
        WithKeySees(env, s.w, install, s.r.value, true, os);
        FilesTransitive(w, s.w, WithKey(env, s.w, install, s.r.value, true, os).w);
      } else if env.toml.decode(At(w.fs, PlaceOf(install, State)).value).Some? {
        ReadStateFinds(env, t.w, install);
      }
    }
  }

  predicate IsJudged(env: Env, install: string, w: World, t: Run<BootstrapReport>) {
    var file, seen := At(w.fs, PlaceOf(install, State)), IsSeen(install, w, t.w);
    var read := if file.Some? then env.toml.decode(file.value) else None;
    && (t.r.Ok? ==> seen && t.r.value.alreadyInstalled && read == Some(t.r.value.state))
    && (t.r.Err? ==> || IsTransportError(t.r.error)
                     || (t.r.error.RelayForeignInstall? && !seen)
                     || (t.r.error.ConfigParse? && seen && read.None?))
  }

  /** Bootstrap twice: after a successful fresh install a second bootstrap, with any options, that does
      not miss the directory leaves the host untouched, and if it gets through it reports the existing
      install and the same state. */
  lemma BootstrapTwice(env: Env, w: World, install: string, opts: BootstrapOptions, again: BootstrapOptions)
    requires IsFaithful(env.toml)
    requires var t := Bootstrap(env, w, install, opts); t.r.Ok? && !t.r.value.alreadyInstalled
    requires var t := Bootstrap(env, w, install, opts); SeesDirs(t.w, Bootstrap(env, t.w, install, again).w)
    ensures var t := Bootstrap(env, w, install, opts);
            var u := Bootstrap(env, t.w, install, again);
            && Idle(t.w, u.w)
            && (if u.r.Ok? then u.r.value.alreadyInstalled && u.r.value.state == t.r.value.state
                else IsSurveyError(u.r.error) || (u.r.error.RelayForeignInstall? && !SeesFiles(t.w, u.w)))
  {
    hide Survey, Existing, Fresh, Idle, Locate, PlaceOf, Prepared, IsTransportError, HealthyThenReads, SeesDirs, SeesFiles;
    var s := Survey(env, w, install, opts.osHint);
    var (os, present) := s.r.value;
    var t, u := Bootstrap(env, w, install, opts), Bootstrap(env, Bootstrap(env, w, install, opts).w, install, again);
    if present {
      ExistingVerdict(env, s.w, install, os);
    }
    FreshSucceeds(env, s.w, install, opts, os);
    ExistingNeverWritten(env, t.w, install, again);
    var s2 := Survey(env, t.w, install, again.osHint);
    SurveyErrors(env, t.w, install, again.osHint);
    SurveyIdle(env, t.w, install, again.osHint);
    BootstrapGoesOn(env, t.w, install, again);
    SeesFirst(t.w, s2.w, u.w);
    IdleSameFs(t.w, s2.w);
    SurveyFinds(env, t.w, install, again.osHint);
    if s2.r.Ok? {
      ExistingVerdict(env, s2.w, install, s2.r.value.0);
      ExistingIdle(env, s2.w, install, s2.r.value.0);
      SeesLater(t.w, s2.w, u.w);
    }
  }

  // ---------------------------------------------------------------------------
  // Bootstrap after a failed bootstrap
  // ---------------------------------------------------------------------------

  /** What a bootstrap of a given host can come to: after the survey, a fresh install if the directory is
      not there or the survey's test hid it, and otherwise a verdict about what is there, without a write. */
  predicate IsVerdict(env: Env, v: World, install: string, opts: BootstrapOptions, u: Run<BootstrapReport>) {
    var s := Survey(env, v, install, opts.osHint);
    match s.r
    case Err(e) => u.r == Err(e) && IsSurveyError(e) && Idle(v, u.w)
    case Ok((os, _)) =>
      if Locate(install) !in v.fs.dirs || !SeesDirs(v, s.w) then u == Fresh(env, s.w, install, opts, os)
      else Idle(v, u.w) && IsJudged(env, install, s.w, u)
  }

  /** Every bootstrap of every host comes to that. */
  lemma BootstrapVerdict(env: Env, v: World, install: string, opts: BootstrapOptions)
    ensures IsVerdict(env, v, install, opts, Bootstrap(env, v, install, opts))
    ensures Survey(env, v, install, opts.osHint).w.fs == v.fs
  {
    hide Survey, Existing, Fresh, Idle, Locate, PlaceOf, IsTransportError, IsJudged, SeesDirs;
    var s := Survey(env, v, install, opts.osHint);
    SurveyIdle(env, v, install, opts.osHint);
    SurveyErrors(env, v, install, opts.osHint);
    IdleSameFs(v, s.w);
    SurveyFinds(env, v, install, opts.osHint);
    if s.r.Ok? && s.r.value.1 {
      ExistingVerdict(env, s.w, install, s.r.value.0);
      ExistingIdle(env, s.w, install, s.r.value.0);
      IdleTransitive(v, s.w, Existing(env, s.w, install, s.r.value.0).w);
    }
  }

  /** What a failed bootstrap of a host without a state file can leave: nothing at all was changed, or
      the prepared install was begun, and the state file is missing or exactly the prepared one. */
  lemma FailedBootstrapLeaves(env: Env, w: World, install: string, opts: BootstrapOptions)
    requires At(w.fs, PlaceOf(install, State)).None? && Bootstrap(env, w, install, opts).r.Err?
    ensures var s, v := Survey(env, w, install, opts.osHint), Bootstrap(env, w, install, opts).w;
            var file := At(v.fs, PlaceOf(install, State));
            || Idle(w, v)
            || (Prepared(env, s.w, opts).Some?
                && (file.None? || file == Some(env.toml.encode(Prepared(env, s.w, opts).value.0))))
  {
    hide Survey, Existing, RunAll, Idle, Locate, PlaceOf, RenderPins, ResolvePins, HealthCheck, WithKey, InstallCommands, Stays;
    var s := Survey(env, w, install, opts.osHint);
    SurveyIdle(env, w, install, opts.osHint);
    IdleSameFs(w, s.w);
    if s.r.Ok? && s.r.value.1 {
      ExistingIdle(env, s.w, install, s.r.value.0);
      IdleTransitive(w, s.w, Existing(env, s.w, install, s.r.value.0).w);
    } else if s.r.Ok? && Prepared(env, s.w, opts).Some? {
      var (state, compose) := Prepared(env, s.w, opts).value;
      var t := RunAll(env.remote, s.w, InstallCommands(install, compose, opts.envContents, env.toml.encode(state)));
      InstallCommandsStay(env.remote, s.w, install, compose, opts.envContents, env.toml.encode(state));
      StayedAt(s.w, t.w, PlaceOf(install, State), None, Some(env.toml.encode(state)));
      HealthCheckIdle(env, t.w);
      IdleSameFs(t.w, HealthCheck(env, t.w).w);
      if t.r.Ok? && HealthCheck(env, t.w).r.Ok? {
        WithKeyReports(env, HealthCheck(env, t.w).w, install, state, false, s.r.value.0);
      }
    }
  }

  /** The retry of a failed bootstrap, decided by two facts about the host it left, as far as the tests
      show them. No directory: a fresh install. A directory without a state file: foreign. A state file:
      the failed install itself is reported as already there, also when the start or the health check
      was what failed. */
  lemma FailedBootstrapRetry(env: Env, w: World, install: string, opts: BootstrapOptions, again: BootstrapOptions)
    requires IsFaithful(env.toml) && At(w.fs, PlaceOf(install, State)).None? && Bootstrap(env, w, install, opts).r.Err?
    ensures var s, v := Survey(env, w, install, opts.osHint), Bootstrap(env, w, install, opts).w;
            var u, s2 := Bootstrap(env, v, install, again), Survey(env, v, install, again.osHint);
            if s2.r.Err? then u.r == Err(s2.r.error) && IsSurveyError(u.r.error) && Idle(v, u.w)
            else if Locate(install) !in v.fs.dirs || !SeesDirs(v, s2.w) then
              u == Fresh(env, s2.w, install, again, s2.r.value.0)
            else
              && Idle(v, u.w)
              && if IsSeen(install, s2.w, u.w) then
                   && Prepared(env, s.w, opts).Some?
                   && (if u.r.Ok? then u.r.value.alreadyInstalled && u.r.value.state == Prepared(env, s.w, opts).value.0
                       else IsTransportError(u.r.error))
                 else u.r.Err? && (u.r.error.RelayForeignInstall? || IsTransportError(u.r.error))
  {
    hide Survey, Bootstrap, Fresh, Idle, Locate, PlaceOf, IsTransportError, Prepared, SeesDirs, SeesFiles;
    var s, v := Survey(env, w, install, opts.osHint), Bootstrap(env, w, install, opts).w;
    FailedBootstrapLeaves(env, w, install, opts);
    if Idle(w, v) {
      IdleSameFs(w, v);
    }
    BootstrapVerdict(env, v, install, again);
  }

  /** A directory without a state file stays as it is through any sequence of calls, so every later
      bootstrap that gets through its survey reports it as foreign. Only a test that hides the directory
      ends that. */
  lemma {:induction false} ForeignForever(env: Env, v: World, install: string, ops: seq<Op>)
    requires Locate(install) in v.fs.dirs && At(v.fs, PlaceOf(install, State)).None?
    requires SeesDirs(v, RunOps(env, v, install, ops))
    ensures Idle(v, RunOps(env, v, install, ops))
    decreases |ops|
  {
    hide RunOp, Locate, PlaceOf, Idle, SeesDirs;
    if ops == [] {
      IdleSelf(v);
    } else {
      var t := RunOp(env, v, install, ops[0]);
      RunOpExtends(env, v, install, ops[0]);
      RunOpsExtends(env, t, install, ops[1..]);
      SeesFirst(v, t, RunOps(env, v, install, ops));
      ForeignStays(env, v, install, ops[0]);
      IdleSameFs(v, t);
      ForeignForever(env, t, install, ops[1..]);
      IdleTransitive(v, t, RunOps(env, t, install, ops[1..]));
    }
  }

  lemma ForeignStays(env: Env, v: World, install: string, op: Op)
    requires Locate(install) in v.fs.dirs && At(v.fs, PlaceOf(install, State)).None?
    requires SeesDirs(v, RunOp(env, v, install, op))
    ensures Idle(v, RunOp(env, v, install, op))
  {
    hide Bootstrap, LoadState, Replace, Locate, PlaceOf, Idle, SeesDirs;
    match op
    case BootstrapOp(boot) => ExistingNeverWritten(env, v, install, boot);
    case CheckOp => CheckUpdatesIdle(env, v, install);
    case UpdateOp(update) =>
      LoadStateMisses(env, v, install);
      LoadStateIdle(env, v, install);
      IdleSelf(v);
  }
}
