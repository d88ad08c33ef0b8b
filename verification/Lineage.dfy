// Whole runs: any sequence of lifecycle calls, with any failures, from a host without an install.
// Every state file that is ever live or backed up belongs to one bootstrap, and its pins are valid
// and were resolved by the registry, until a `cp` onto it or onto the live one is torn halfway, or a
// test hides the install directory from a bootstrap.
module Lineage {
  import opened Wrappers
  import opened Text
  import opened Paths
  import opened Listing
  import opened Commands
  import opened Shell
  import opened ShellFacts
  import opened State
  import opened Render
  import opened Retention
  import opened Protocol
  import opened RunFacts
  import opened UpdateFacts
  import opened UpdateTheorems
  import Comp = Compose

  // ---------------------------------------------------------------------------
  // What a command can put where a state file belongs
  // ---------------------------------------------------------------------------

  /** Step `i` is a `cp` onto this file that failed halfway: it may have left anything there. */
  predicate IsTorn(s: Schedule, trail: seq<Event>, i: nat, l: Location)
    requires i < |trail|
  {
    trail[i].prim.Copy? && trail[i].code != 0 && Locate(trail[i].prim.dst) == l && s.outcome(i).tornCopy.Some?
  }

  /** After a command, a file is as it was, gone, or entirely the command's own content. */
  predicate Sourced(c: Cmd, before: Fs, after: Fs, l: Location) {
    || At(after, l) == At(before, l)
    || At(after, l) == None
    || (c.WriteFile? && l == Locate(c.path) && At(after, l) == Some(c.content))
    || (c.CopyFile? && l == Locate(c.dst) && At(after, l) == At(before, Locate(c.src)))
  }

  predicate AllSourced(c: Cmd, w: World, v: World, l: Location) {
    && w.trail <= v.trail && Sourced(c, w.fs, v.fs, l)
    && forall i :: |w.trail| <= i < |v.trail| ==> Sourced(c, w.fs, v.trail[i].fs, l)
  }

  /** Files a command uses on the side: the temporary file of a write, the key of a first start. */
  predicate IsScratch(c: Cmd, l: Location) {
    (c.WriteFile? && l == Locate(c.path + TMP_SUFFIX)) || (c.ComposeUp? && l == KeyLocation(Locate(c.path)))
  }

  /** The command ran as a `cp` onto this file that failed halfway. */
  predicate Tears(s: Schedule, w: World, v: World, l: Location) {
    |v.trail| == |w.trail| + 1 && w.trail <= v.trail && IsTorn(s, v.trail, |w.trail|, l)
  }

  lemma SingleSourced(s: Schedule, w: World, c: Cmd, l: Location)
    requires c.CopyFile? || c.RemoveTree?
    ensures var v := Do(s, w, c).w; AllSourced(c, w, v, l) || Tears(s, w, v, l)
  {
    hide Locate, Accepts, Script;
    if Accepts(c) {
      OneStep(s, w, c);
    }
  }

  lemma OneStep(s: Schedule, w: World, c: Cmd)
    requires c.CopyFile? || c.RemoveTree?
    ensures var prim := if c.CopyFile? then Copy(c.src, c.dst) else Remove(c.path);
            Script(c) == [prim]
            && RunScript(s, w, [], Script(c)).w == After(w, prim, Apply(prim, [], w.fs, w.running, s.outcome(|w.trail|)))
  {
    hide Apply;
  }

  lemma DoSourced(s: Schedule, w: World, c: Cmd, l: Location)
    requires !IsScratch(c, l)
    ensures var v := Do(s, w, c).w; AllSourced(c, w, v, l) || Tears(s, w, v, l)
  {
    hide Do, Locate, Tears;
    if c.CopyFile? || c.RemoveTree? {
      SingleSourced(s, w, c, l);
    } else if c.WriteFile? && l == Locate(c.path) {
      WriteIsAtomic(s, w, c.path, c.content);
    } else {
      DoQuiet(s, w, c, l);
    }
  }

  // ---------------------------------------------------------------------------
  // Good state files
  // ---------------------------------------------------------------------------

  /** What one bootstrap fixes for good. */
  datatype Origin = Origin(at: DateTime, version: string, services: seq<string>, repos: seq<string>)

  function Services(pins: seq<ImagePin>): seq<string> {
    seq(|pins|, i requires 0 <= i < |pins| => pins[i].service)
  }

  function Repos(pins: seq<ImagePin>): seq<string> {
    seq(|pins|, i requires 0 <= i < |pins| => pins[i].repo)
  }

  function OriginOf(s: RelayState): Origin {
    Origin(s.install.bootstrappedAt, s.install.version, Services(s.images), Repos(s.images))
  }

  /** A pin that passes the validators and carries a digest the registry gave for it. */
  ghost predicate IsResolved(env: Env, p: ImagePin) {
    Comp.IsKey(Comp.KeyOf(p)) && exists at: nat, i: nat :: env.registry.digest(at, i, p.repo, p.tag) == Some(p.digest)
  }

  ghost predicate IsGoodState(env: Env, g: Origin, s: RelayState) {
    OriginOf(s) == g && forall p :: p in s.images ==> IsResolved(env, p)
  }

  ghost predicate IsGoodText(env: Env, g: Origin, content: Bytes) {
    env.toml.decode(content).Some? && IsGoodState(env, g, env.toml.decode(content).value)
  }

  function LiveState(install: string): Location {
    Locate(install) + [STATE_FILE]
  }

  /** Where state files live: the install directory and every entry of the backups directory. */
  predicate IsStateLocation(install: string, l: Location) {
    || l == LiveState(install)
    || (|l| == |Locate(install)| + 3 && Locate(install) + ["backups"] <= l && l[|l| - 1] == STATE_FILE)
  }

  /** What can spoil a state file at one step: a `cp` torn halfway onto that very file or onto the live
      one, or a `test -d` that hid the install directory from a bootstrap. */
  predicate IsSpoiling(s: Schedule, install: string, trail: seq<Event>, i: nat, l: Location)
    requires i < |trail|
  {
    IsTorn(s, trail, i, l) || IsTorn(s, trail, i, LiveState(install)) || HidesDir(trail[i])
  }

  /** One of the first `n` steps did. */
  predicate IsSpoiled(s: Schedule, install: string, trail: seq<Event>, n: nat, l: Location) {
    exists i :: 0 <= i < n && i < |trail| && IsSpoiling(s, install, trail, i, l)
  }

  /** The state file at `l`, if there is one, is good. */
  ghost predicate IsFair(env: Env, g: Origin, fs: Fs, l: Location) {
    l in fs.files ==> IsGoodText(env, g, fs.files[l])
  }

  /** Good now and at every step so far, up to the first step that can spoil it. */
  ghost predicate IsSound(env: Env, install: string, g: Origin, w: World, l: Location) {
    && (IsSpoiled(env.remote, install, w.trail, |w.trail|, l) || IsFair(env, g, w.fs, l))
    && forall i :: 0 <= i < |w.trail| ==>
         IsSpoiled(env.remote, install, w.trail, i + 1, l) || IsFair(env, g, w.trail[i].fs, l)
  }

  ghost predicate IsGood(env: Env, install: string, g: Origin, w: World) {
    forall l :: IsStateLocation(install, l) ==> IsSound(env, install, g, w, l)
  }

  // ---------------------------------------------------------------------------
  // One file over the steps of a command
  // ---------------------------------------------------------------------------

  predicate SpoiledNow(s: Schedule, install: string, w: World, l: Location) {
    IsSpoiled(s, install, w.trail, |w.trail|, l)
  }

  /** The live state file can no longer be trusted, and then no state file can. */
  predicate WasSpoiled(s: Schedule, install: string, w: World) {
    SpoiledNow(s, install, w, LiveState(install))
  }

  lemma LiveSpoilsAll(s: Schedule, install: string, trail: seq<Event>, n: nat, l: Location)
    requires IsSpoiled(s, install, trail, n, LiveState(install))
    ensures IsSpoiled(s, install, trail, n, l)
  {
    hide IsTorn, LiveState, HidesDir;
    var i :| 0 <= i < n && i < |trail| && IsSpoiling(s, install, trail, i, LiveState(install));
    assert IsSpoiling(s, install, trail, i, l);
  }

  lemma SpoilingPrefix(s: Schedule, install: string, a: seq<Event>, b: seq<Event>, i: nat, l: Location)
    requires a <= b && i < |a|
    ensures IsSpoiling(s, install, a, i, l) <==> IsSpoiling(s, install, b, i, l)
  {
  }

  lemma SpoiledLater(s: Schedule, install: string, a: seq<Event>, b: seq<Event>, n: nat, m: nat, l: Location)
    requires a <= b && n <= m && IsSpoiled(s, install, a, n, l)
    ensures IsSpoiled(s, install, b, m, l)
  {
    hide IsSpoiling;
    var i :| 0 <= i < n && i < |a| && IsSpoiling(s, install, a, i, l);
    SpoilingPrefix(s, install, a, b, i, l);
  }

  /** What held up to a world still holds of its steps in a longer trail. */
  lemma SoundSteps(env: Env, install: string, g: Origin, w: World, v: World, l: Location, i: nat)
    requires IsSound(env, install, g, w, l) && w.trail <= v.trail && i < |w.trail|
    ensures IsSpoiled(env.remote, install, v.trail, i + 1, l) || IsFair(env, g, v.trail[i].fs, l)
  {
    hide IsFair, IsSpoiled;
    if IsSpoiled(env.remote, install, w.trail, i + 1, l) {
      SpoiledLater(env.remote, install, w.trail, v.trail, i + 1, i + 1, l);
    }
    assert v.trail[i] == w.trail[i];
  }

  lemma SpoiledStays(env: Env, install: string, g: Origin, w: World, v: World, l: Location)
    requires IsSound(env, install, g, w, l) && w.trail <= v.trail
    requires SpoiledNow(env.remote, install, w, l)
    ensures IsSound(env, install, g, v, l) && SpoiledNow(env.remote, install, v, l)
  {
    hide IsFair, IsSpoiled;
    forall n: nat | n >= |w.trail|
      ensures IsSpoiled(env.remote, install, v.trail, n, l)
    {
      SpoiledLater(env.remote, install, w.trail, v.trail, |w.trail|, n, l);
    }
    forall i | 0 <= i < |v.trail|
      ensures IsSpoiled(env.remote, install, v.trail, i + 1, l) || IsFair(env, g, v.trail[i].fs, l)
    {
      if i < |w.trail| {
        SoundSteps(env, install, g, w, v, l, i);
      }
    }
  }

  /** The command does nothing to this file that a good run may not do. */
  ghost predicate IsHarmless(env: Env, g: Origin, w: World, c: Cmd, l: Location) {
    && !IsScratch(c, l)
    && (c.WriteFile? && l == Locate(c.path) ==> IsGoodText(env, g, c.content))
    && (c.CopyFile? && l == Locate(c.dst) ==> IsFair(env, g, w.fs, Locate(c.src)))
  }

  lemma SourcedFair(env: Env, g: Origin, w: World, c: Cmd, after: Fs, l: Location)
    requires IsFair(env, g, w.fs, l) && IsHarmless(env, g, w, c, l) && Sourced(c, w.fs, after, l)
    ensures IsFair(env, g, after, l)
  {
    hide Locate, IsGoodText, IsScratch;
  }

  lemma SourcedSound(env: Env, install: string, g: Origin, w: World, v: World, c: Cmd, l: Location)
    requires IsSound(env, install, g, w, l) && IsFair(env, g, w.fs, l)
    requires IsHarmless(env, g, w, c, l) && AllSourced(c, w, v, l)
    ensures IsSound(env, install, g, v, l)
  {
    hide Locate, Sourced, IsFair, IsSpoiled, IsHarmless;
    SourcedFair(env, g, w, c, v.fs, l);
    forall i | 0 <= i < |v.trail|
      ensures IsSpoiled(env.remote, install, v.trail, i + 1, l) || IsFair(env, g, v.trail[i].fs, l)
    {
      if i < |w.trail| {
        SoundSteps(env, install, g, w, v, l, i);
      } else {
        SourcedFair(env, g, w, c, v.trail[i].fs, l);
      }
    }
  }

  lemma TearsSound(env: Env, install: string, g: Origin, w: World, v: World, l: Location)
    requires IsSound(env, install, g, w, l) && Tears(env.remote, w, v, l)
    ensures IsSound(env, install, g, v, l)
  {
    hide IsFair, IsTorn;
    assert IsSpoiling(env.remote, install, v.trail, |w.trail|, l);
    forall i | 0 <= i < |v.trail|
      ensures IsSpoiled(env.remote, install, v.trail, i + 1, l) || IsFair(env, g, v.trail[i].fs, l)
    {
      if i < |w.trail| {
        SoundSteps(env, install, g, w, v, l, i);
      }
    }
  }

  lemma DoSound(env: Env, install: string, g: Origin, w: World, c: Cmd, l: Location)
    requires IsSound(env, install, g, w, l)
    requires SpoiledNow(env.remote, install, w, l) || IsHarmless(env, g, w, c, l)
    ensures var v := Do(env.remote, w, c).w;
            IsSound(env, install, g, v, l) && (SpoiledNow(env.remote, install, w, l) ==> SpoiledNow(env.remote, install, v, l))
  {
    hide Do, Locate, AllSourced, Tears, IsSpoiled, IsFair;
    var v := Do(env.remote, w, c).w;
    DoExtends(env.remote, w, c);
    if SpoiledNow(env.remote, install, w, l) {
      SpoiledStays(env, install, g, w, v, l);
    } else {
      DoSourced(env.remote, w, c, l);
      if Tears(env.remote, w, v, l) {
        TearsSound(env, install, g, w, v, l);
      } else {
        SourcedSound(env, install, g, w, v, c, l);
      }
    }
  }

  lemma DoExtends(s: Schedule, w: World, c: Cmd)
    ensures w.trail <= Do(s, w, c).w.trail
  {
    hide Accepts, Apply;
    if Accepts(c) {
      ScriptExtends(s, w, [], Script(c));
    }
  }

  lemma {:induction false} ScriptExtends(s: Schedule, w: World, cwd: Location, prims: seq<Prim>)
    requires prims != []
    ensures w.trail <= RunScript(s, w, cwd, prims).w.trail
    decreases |prims|
  {
    hide Apply;
    var e := Apply(prims[0], cwd, w.fs, w.running, s.outcome(|w.trail|));
    if e.code == 0 && |prims| > 1 {
      ScriptExtends(s, After(w, prims[0], e), e.cwd, prims[1..]);
    }
  }

  // ---------------------------------------------------------------------------
  // All state files over a command list
  // ---------------------------------------------------------------------------

  /** A command that puts only good texts, and copies only the live file, where state files live. */
  ghost predicate IsBenign(env: Env, install: string, g: Origin, c: Cmd) {
    && (forall l :: IsStateLocation(install, l) ==> !IsScratch(c, l))
    && (c.WriteFile? && IsStateLocation(install, Locate(c.path)) ==> IsGoodText(env, g, c.content))
    && (c.CopyFile? && IsStateLocation(install, Locate(c.dst)) ==> Locate(c.src) == LiveState(install))
  }

  lemma LiveIsState(install: string)
    ensures IsStateLocation(install, LiveState(install))
  {
  }

  lemma BenignIsHarmless(env: Env, install: string, g: Origin, w: World, c: Cmd, l: Location)
    requires IsGood(env, install, g, w) && !WasSpoiled(env.remote, install, w) && IsBenign(env, install, g, c)
    requires IsStateLocation(install, l)
    ensures IsHarmless(env, g, w, c, l)
  {
    hide Locate, LiveState, IsStateLocation, IsFair, IsSpoiled, IsGoodText, IsScratch;
    LiveIsState(install);
    assert IsSound(env, install, g, w, LiveState(install));
  }

  lemma DoGood(env: Env, install: string, g: Origin, w: World, c: Cmd)
    requires IsGood(env, install, g, w) && (WasSpoiled(env.remote, install, w) || IsBenign(env, install, g, c))
    ensures var v := Do(env.remote, w, c).w;
            IsGood(env, install, g, v) && (WasSpoiled(env.remote, install, w) ==> WasSpoiled(env.remote, install, v))
  {
    hide Do, LiveState, IsStateLocation, IsSound, IsSpoiled, IsHarmless, IsBenign;
    LiveIsState(install);
    forall l | IsStateLocation(install, l)
      ensures var v := Do(env.remote, w, c).w;
              IsSound(env, install, g, v, l) && (SpoiledNow(env.remote, install, w, l) ==> SpoiledNow(env.remote, install, v, l))
    {
      if WasSpoiled(env.remote, install, w) {
        LiveSpoilsAll(env.remote, install, w.trail, |w.trail|, l);
      } else {
        BenignIsHarmless(env, install, g, w, c, l);
      }
      DoSound(env, install, g, w, c, l);
    }
  }

  lemma {:induction false} RunAllGood(env: Env, install: string, g: Origin, w: World, cs: seq<Cmd>)
    requires IsGood(env, install, g, w)
    requires WasSpoiled(env.remote, install, w) || forall c :: c in cs ==> IsBenign(env, install, g, c)
    ensures IsGood(env, install, g, RunAll(env.remote, w, cs).w)
    decreases |cs|
  {
    hide Do, IsBenign, IsGood, WasSpoiled;
    if cs != [] {
      assert cs[0] in cs;
      DoGood(env, install, g, w, cs[0]);
      var t := ExecOk(env.remote, w, cs[0]);
      if t.r.Ok? {
        RunAllGood(env, install, g, t.w, cs[1..]);
      }
    }
  }

  lemma IdleSound(env: Env, install: string, g: Origin, w: World, v: World, l: Location)
    requires IsSound(env, install, g, w, l) && Idle(w, v)
    ensures IsSound(env, install, g, v, l) && (SpoiledNow(env.remote, install, w, l) ==> SpoiledNow(env.remote, install, v, l))
  {
    hide IsFair, IsSpoiled;
    if SpoiledNow(env.remote, install, w, l) {
      SpoiledStays(env, install, g, w, v, l);
    } else {
      forall i | 0 <= i < |v.trail|
        ensures IsSpoiled(env.remote, install, v.trail, i + 1, l) || IsFair(env, g, v.trail[i].fs, l)
      {
        if i < |w.trail| {
          SoundSteps(env, install, g, w, v, l, i);
        }
      }
    }
  }

  lemma IdleGood(env: Env, install: string, g: Origin, w: World, v: World)
    requires IsGood(env, install, g, w) && Idle(w, v)
    ensures IsGood(env, install, g, v) && (WasSpoiled(env.remote, install, w) ==> WasSpoiled(env.remote, install, v))
  {
    hide Idle, LiveState, IsStateLocation, IsSound, IsSpoiled;
    LiveIsState(install);
    forall l | IsStateLocation(install, l)
      ensures IsSound(env, install, g, v, l) && (SpoiledNow(env.remote, install, w, l) ==> SpoiledNow(env.remote, install, v, l))
    {
      IdleSound(env, install, g, w, v, l);
    }
  }

  // ---------------------------------------------------------------------------
  // The commands of the protocol are benign
  // ---------------------------------------------------------------------------

  lemma StateName(p: Place, temp: bool)
    ensures NameOf(p) + Suffix(temp) == STATE_FILE <==> !temp && (p.State? || p.SavedState?)
  {
    assert NameOf(p) + "" == NameOf(p) && STATE_FILE + "" == STATE_FILE;
    if NameOf(p) + Suffix(temp) == STATE_FILE {
      NamesDistinct(p, State, temp, false);
    }
  }

  lemma StateLocationOf(install: string, p: Place, temp: bool)
    ensures IsStateLocation(install, LocationOf(install, p, temp)) <==>
            NameOf(p) + Suffix(temp) == STATE_FILE && (ParentOf(p) == [] || |ParentOf(p)| == 2)
  {
    hide Locate, NameOf, BackupName;
    UnderBase(Locate(install), ParentOf(p), NameOf(p) + Suffix(temp));
  }

  lemma UnderBase(base: Location, parent: Location, n: string)
    requires |parent| <= 2 && (|parent| == 2 ==> parent[0] == "backups")
    ensures var l := base + parent + [n];
            (l == base + [STATE_FILE] || (|l| == |base| + 3 && base + ["backups"] <= l && l[|l| - 1] == STATE_FILE))
            <==> n == STATE_FILE && (parent == [] || |parent| == 2)
  {
    var l := base + parent + [n];
    assert |l| == |base| + |parent| + 1 && l[|l| - 1] == n;
    if parent == [] {
      assert l == base + [n] && (base + [STATE_FILE])[|base|] == STATE_FILE;
    } else if |parent| == 2 {
      assert l[..|base| + 1] == base + ["backups"];
    }
  }

  lemma StatePlaces(install: string, p: Place, temp: bool)
    ensures IsStateLocation(install, Locate(PathOf(install, p, temp))) <==> !temp && (p.State? || p.SavedState?)
  {
    hide IsStateLocation, LocationOf, NameOf, PathOf;
    PlaceLocation(install, p, temp);
    StateLocationOf(install, p, temp);
    StateName(p, temp);
  }

  lemma WriteBenign(env: Env, install: string, g: Origin, p: Place, content: Bytes)
    requires p.State? || p.SavedState? ==> IsGoodText(env, g, content)
    ensures IsBenign(env, install, g, WriteFile(PathOf(install, p, false), content))
  {
    hide Locate, IsStateLocation, IsGoodText;
    TempPath(install, p);
    StatePlaces(install, p, false);
    StatePlaces(install, p, true);
  }

  lemma CopyBenign(env: Env, install: string, g: Origin, p: Place, q: Place)
    requires q.State? || q.SavedState? ==> p.State?
    ensures IsBenign(env, install, g, CopyFile(PathOf(install, p, false), PathOf(install, q, false)))
  {
    hide Locate, IsStateLocation, IsGoodText, LiveState;
    StatePlaces(install, q, false);
    LivePlace(install);
  }

  lemma LivePlace(install: string)
    ensures PlaceOf(install, State) == LiveState(install)
  {
    hide Locate;
    PlaceLocation(install, State, false);
    assert STATE_FILE + "" == STATE_FILE && Locate(install) + [] == Locate(install);
  }

  lemma UpBenign(env: Env, install: string, g: Origin)
    ensures IsBenign(env, install, g, ComposeUp(install))
  {
    hide Locate, IsStateLocation, IsGoodText;
    FixedPlaces(install);
    StatePlaces(install, Key, false);
  }

  lemma OthersBenign(env: Env, install: string, g: Origin, c: Cmd)
    requires !c.WriteFile? && !c.CopyFile? && !c.ComposeUp?
    ensures IsBenign(env, install, g, c)
  {
  }

  lemma BackupGood(env: Env, install: string, g: Origin, w: World, at: DateTime)
    requires IsGood(env, install, g, w)
    ensures IsGood(env, install, g, TakeBackup(env, w, install, BackupDir(install, at)).w)
  {
    hide Do, RunAll, IsBenign, IsGood, PathOf;
    BackupPaths(install, at);
    HelpersNamePlaces(install, at);
    var dir := BackupDir(install, at);
    var cs := BackupCommands(install, dir);
    OthersBenign(env, install, g, cs[0]);
    CopyBenign(env, install, g, Compose, SavedCompose(at));
    CopyBenign(env, install, g, State, SavedState(at));
    RunAllGood(env, install, g, w, cs);
    var t := RunAll(env.remote, w, cs);
    OthersBenign(env, install, g, ComposeConfig(install));
    DoGood(env, install, g, t.w, ComposeConfig(install));
    var c := Do(env.remote, t.w, ComposeConfig(install));
    if c.r.Ok? {
      WriteBenign(env, install, g, SavedConfig(at), c.r.value.stdout);
      RunAllGood(env, install, g, c.w, [WriteFile(PosixJoin(dir, CONFIG_FILE), c.r.value.stdout)]);
    }
  }

  /** The saved state file may be put back. */
  ghost predicate IsRestorable(env: Env, install: string, g: Origin, w: World, at: DateTime) {
    WasSpoiled(env.remote, install, w) || IsFair(env, g, w.fs, PlaceOf(install, SavedState(at)))
  }

  lemma QuietRestorable(env: Env, install: string, g: Origin, w: World, v: World, at: DateTime)
    requires IsRestorable(env, install, g, w, at) && Quiet(w, v, PlaceOf(install, SavedState(at)))
    ensures IsRestorable(env, install, g, v, at)
  {
    hide IsSpoiled, PlaceOf, IsGoodText, LiveState;
    var l := PlaceOf(install, SavedState(at));
    if WasSpoiled(env.remote, install, w) {
      SpoiledLater(env.remote, install, w.trail, v.trail, |w.trail|, |v.trail|, LiveState(install));
    } else if l in v.fs.files {
      assert At(v.fs, l) == Some(v.fs.files[l]);
    }
  }

  /** Restoring the state file keeps everything good if what was saved is. */
  lemma RestoreStateGood(env: Env, install: string, g: Origin, w: World, at: DateTime)
    requires IsGood(env, install, g, w) && IsRestorable(env, install, g, w, at)
    ensures var c := CopyFile(PathOf(install, SavedState(at), false), PathOf(install, State, false));
            IsGood(env, install, g, Do(env.remote, w, c).w)
  {
    hide Do, Locate, PathOf, LiveState, IsStateLocation, IsSound, IsSpoiled, IsFair;
    var c := CopyFile(PathOf(install, SavedState(at), false), PathOf(install, State, false));
    forall l | IsStateLocation(install, l)
      ensures IsSound(env, install, g, Do(env.remote, w, c).w, l)
    {
      if WasSpoiled(env.remote, install, w) {
        LiveSpoilsAll(env.remote, install, w.trail, |w.trail|, l);
      }
      DoSound(env, install, g, w, c, l);
    }
  }

  lemma RestoreGood(env: Env, install: string, g: Origin, w: World, at: DateTime)
    requires IsGood(env, install, g, w) && IsRestorable(env, install, g, w, at)
    ensures IsGood(env, install, g, RunAll(env.remote, w, RestoreCommands(install, BackupDir(install, at))).w)
  {
    hide Do, RunAll, IsBenign, IsGood, PathOf, PlaceOf, IsRestorable, MayChange;
    BackupPaths(install, at);
    var cs := RestoreCommands(install, BackupDir(install, at));
    var c0, c1, c2 := cs[0], cs[1], cs[2];
    assert cs[1..] == [c1, c2] && [c1, c2][1..] == [c2];
    hide RestoreCommands;
    CopyBenign(env, install, g, SavedCompose(at), Compose);
    DoGood(env, install, g, w, c0);
    var w1 := ExecOk(env.remote, w, c0).w;
    CopyChanges(install, c0.src, Compose, SavedState(at));
    DoQuiet(env.remote, w, c0, PlaceOf(install, SavedState(at)));
    QuietRestorable(env, install, g, w, w1, at);
    RestoreStateGood(env, install, g, w1, at);
    var w2 := ExecOk(env.remote, w1, c1).w;
    UpBenign(env, install, g);
    RunAllGood(env, install, g, w2, [c2]);
    RunAllParts(env.remote, w, cs);
    RunAllParts(env.remote, w1, [c1, c2]);
  }

  lemma RunAllParts(s: Schedule, w: World, cs: seq<Cmd>)
    requires cs != []
    ensures var t := ExecOk(s, w, cs[0]);
            RunAll(s, w, cs).w == if t.r.Ok? then RunAll(s, t.w, cs[1..]).w else t.w
  {
    hide ExecOk;
  }

  lemma RollbackGood(env: Env, install: string, g: Origin, w: World, at: DateTime)
    requires IsGood(env, install, g, w) && IsRestorable(env, install, g, w, at)
    ensures IsGood(env, install, g, Rollback(env, w, install, BackupDir(install, at)).w)
  {
    hide RunAll, IsGood, RestoreCommands, BackupDir, HealthCheck, IsRestorable;
    RestoreGood(env, install, g, w, at);
    var t := RunAll(env.remote, w, RestoreCommands(install, BackupDir(install, at)));
    HealthCheckIdle(env, t.w);
    IdleGood(env, install, g, t.w, HealthCheck(env, t.w).w);
  }

  lemma {:induction false} DeleteAllGood(env: Env, install: string, g: Origin, w: World, doomed: seq<Entry>, deleted: seq<string>)
    requires IsGood(env, install, g, w)
    ensures IsGood(env, install, g, DeleteAll(env, w, doomed, deleted).w)
    decreases |doomed|
  {
    hide Do, IsGood, IsBenign;
    if doomed != [] {
      var c := RemoveTree(doomed[0].path);
      OthersBenign(env, install, g, c);
      DoGood(env, install, g, w, c);
      var t := ExecOk(env.remote, w, c);
      if t.r.Ok? {
        DeleteAllGood(env, install, g, t.w, doomed[1..], deleted + [doomed[0].path]);
      }
    }
  }

  lemma GcGood(env: Env, install: string, g: Origin, w: World, now: DateTime)
    requires IsGood(env, install, g, w)
    ensures IsGood(env, install, g, GcBackups(env, w, install, now).w)
  {
    hide Do, IsGood, ParseListing, Doomed, DeleteAll, BackupsPath;
    var c := FindBackups(BackupsPath(install));
    DoIdle(env.remote, w, c);
    var t := Do(env.remote, w, c);
    IdleGood(env, install, g, w, t.w);
    if t.r.Ok? && t.r.value.code == 0 {
      DeleteAllGood(env, install, g, t.w, Doomed(ParseListing(t.r.value.stdout), now.epoch - RETENTION_SECONDS), []);
    }
  }

  lemma SettleGood(env: Env, install: string, g: Origin, w: World, now: DateTime, dir: Option<DateTime>, newState: RelayState)
    requires IsGood(env, install, g, w)
    requires dir.Some? ==> IsRestorable(env, install, g, w, dir.value)
    ensures IsGood(env, install, g, Settle(env, w, install, now, DirOf(install, dir), newState).w)
  {
    hide HealthCheck, GcBackups, Rollback, IsGood, BackupDir, IsRestorable, PlaceOf;
    var h := HealthCheck(env, w);
    HealthCheckIdle(env, w);
    IdleGood(env, install, g, w, h.w);
    GcGood(env, install, g, h.w, now);
    if dir.Some? {
      IdleIsQuiet(w, h.w, PlaceOf(install, SavedState(dir.value)));
      QuietRestorable(env, install, g, w, h.w, dir.value);
      RollbackGood(env, install, g, h.w, dir.value);
    }
  }

  lemma DeployCommandsGood(env: Env, install: string, g: Origin, w: World, compose: Bytes, state: Bytes)
    requires IsGood(env, install, g, w) && (WasSpoiled(env.remote, install, w) || IsGoodText(env, g, state))
    ensures IsGood(env, install, g, RunAll(env.remote, w, DeployCommands(install, compose, state)).w)
  {
    hide RunAll, IsBenign, IsGood, IsGoodText, WasSpoiled, PathOf, ComposePath, StatePath;
    HelpersNamePlaces(install, Instant(0, 1970, 1, 1, 0, 0, 0));
    WriteBenign(env, install, g, Compose, compose);
    if IsGoodText(env, g, state) {
      WriteBenign(env, install, g, State, state);
    }
    OthersBenign(env, install, g, ComposePull(install));
    UpBenign(env, install, g);
    RunAllGood(env, install, g, w, DeployCommands(install, compose, state));
  }

  // ---------------------------------------------------------------------------
  // The states an update writes
  // ---------------------------------------------------------------------------

  lemma ReadStateReads(env: Env, w: World, install: string)
    requires ReadState(env, w, install).r.Ok?
    ensures At(w.fs, PlaceOf(install, State)).Some?
    ensures env.toml.decode(At(w.fs, PlaceOf(install, State)).value) == Some(ReadState(env, w, install).r.value)
  {
    hide Do, ExecOk, Succeeds, Locate, StatePath, PathOf;
    HelpersNamePlaces(install, Instant(0, 1970, 1, 1, 0, 0, 0));
    SucceedsIsOk(env.remote, w, CatFile(StatePath(install)));
    CatSuccess(env.remote, w, StatePath(install));
  }

  /** What was read is what the live state file holds. */
  lemma LoadStateReads(env: Env, w: World, install: string)
    requires LoadState(env, w, install).r.Ok?
    ensures At(w.fs, PlaceOf(install, State)).Some?
    ensures env.toml.decode(At(w.fs, PlaceOf(install, State)).value) == Some(LoadState(env, w, install).r.value)
  {
    hide ExitsZero, ReadState, PlaceOf, StatePath;
    ExitsZeroIdle(env, w, TestFileExists(StatePath(install)));
    ReadStateReads(env, ExitsZero(env, w, TestFileExists(StatePath(install))).w, install);
  }

  lemma LiveIsGood(env: Env, install: string, g: Origin, w: World)
    requires IsGood(env, install, g, w) && LoadState(env, w, install).r.Ok?
    ensures WasSpoiled(env.remote, install, w) || IsGoodState(env, g, LoadState(env, w, install).r.value)
  {
    hide LoadState, PlaceOf, LiveState, IsStateLocation, IsSpoiled, IsGoodState;
    LoadStateReads(env, w, install);
    LivePlace(install);
    LiveIsState(install);
    assert IsSound(env, install, g, w, LiveState(install));
  }

  lemma {:induction false} CheckPinsPoint(env: Env, at: nat, pins: seq<ImagePin>, i: nat)
    requires i <= |pins| && CheckPins(env, at, pins, i).Ok?
    ensures forall j :: i <= j < |pins| ==>
              CheckPin(env, at, j, pins[j]) == Ok(CheckPins(env, at, pins, i).value[j - i])
    decreases |pins| - i
  {
    hide CheckPin;
    if i < |pins| {
      CheckPinsPoint(env, at, pins, i + 1);
    }
  }

  lemma CheckedPin(env: Env, at: nat, i: nat, pin: ImagePin)
    requires CheckPin(env, at, i, pin).Ok?
    ensures var u := CheckPin(env, at, i, pin).value;
            && u.service == pin.service && u.repo == pin.repo
            && env.registry.digest(at, i, u.repo, u.latestTag) == Some(u.latestDigest)
  {
    hide LatestTag;
  }

  /** The pins an update writes come from the state it read and from the registry. */
  lemma NewPins(env: Env, at: nat, pins: seq<ImagePin>, now: DateTime)
    requires CheckPins(env, at, pins, 0).Ok?
    ensures var ps := PinsOf(CheckPins(env, at, pins, 0).value, now);
            && Services(ps) == Services(pins) && Repos(ps) == Repos(pins)
            && forall j :: 0 <= j < |ps| ==> env.registry.digest(at, j, ps[j].repo, ps[j].tag) == Some(ps[j].digest)
  {
    hide CheckPin, CheckPins, PinsOf;
    CheckPinsPoint(env, at, pins, 0);
    var us := CheckPins(env, at, pins, 0).value;
    var ps := PinsOf(us, now);
    forall j | 0 <= j < |ps|
      ensures ps[j].service == pins[j].service && ps[j].repo == pins[j].repo
      ensures env.registry.digest(at, j, ps[j].repo, ps[j].tag) == Some(ps[j].digest)
    {
      CheckedPin(env, at, j, pins[j]);
      assert CheckPin(env, at, j, pins[j]) == Ok(us[j - 0]);
    }
  }

  lemma ResolvedPins(env: Env, at: nat, ps: seq<ImagePin>, template: Bytes)
    requires forall j :: 0 <= j < |ps| ==> env.registry.digest(at, j, ps[j].repo, ps[j].tag) == Some(ps[j].digest)
    requires RenderPins(template, ps).Ok?
    ensures forall p :: p in ps ==> IsResolved(env, p)
  {
    RenderInserts(template, ps);
  }

  /** The new state of an update has the origin of the one it replaces. */
  lemma NewStateGood(env: Env, install: string, g: Origin, state: RelayState, at: nat, now: DateTime, template: Bytes)
    requires IsFaithful(env.toml) && IsGoodState(env, g, state) && CheckPins(env, at, state.images, 0).Ok?
    requires RenderPins(template, PinsOf(CheckPins(env, at, state.images, 0).value, now)).Ok?
    ensures IsGoodText(env, g, env.toml.encode(ApplyUpdate(state, PinsOf(CheckPins(env, at, state.images, 0).value, now), now)))
  {
    hide CheckPins, RenderPins;
    var ps := PinsOf(CheckPins(env, at, state.images, 0).value, now);
    NewPins(env, at, state.images, now);
    ResolvedPins(env, at, ps, template);
  }

  /** A deployment keeps everything good when the state it reads is the one the check read. */
  lemma DeployGood(env: Env, install: string, g: Origin, w: World, opts: UpdateOptions, now: DateTime, dir: Option<DateTime>,
                   at: nat, read: RelayState)
    requires IsFaithful(env.toml) && IsGood(env, install, g, w)
    requires CheckPins(env, at, read.images, 0).Ok? && (WasSpoiled(env.remote, install, w) || IsGoodState(env, g, read))
    requires At(w.fs, PlaceOf(install, State)).Some?
             ==> env.toml.decode(At(w.fs, PlaceOf(install, State)).value) == Some(read)
    requires dir.Some? ==> IsRestorable(env, install, g, w, dir.value)
    ensures IsGood(env, install, g,
                   Deploy(env, w, install, opts, CheckPins(env, at, read.images, 0).value, now, DirOf(install, dir)).w)
  {
    hide LoadState, RunAll, RenderPins, Settle, DeployCommands, PlaceOf, BackupDir, IsGood, IsGoodState, CheckPins, IsGoodText,
         WasSpoiled, IsRestorable;
    var images := CheckPins(env, at, read.images, 0).value;
    var l := LoadState(env, w, install);
    LoadStateIdle(env, w, install);
    IdleGood(env, install, g, w, l.w);
    if l.r.Ok? {
      LoadStateReads(env, w, install);
      var newState := ApplyUpdate(read, PinsOf(images, now), now);
      var compose := RenderPins(opts.template, PinsOf(images, now));
      if compose.Ok? {
        if !WasSpoiled(env.remote, install, w) {
          NewStateGood(env, install, g, read, at, now, opts.template);
        }
        var cs := DeployCommands(install, compose.value, env.toml.encode(newState));
        DeployCommandsGood(env, install, g, l.w, compose.value, env.toml.encode(newState));
        var t := RunAll(env.remote, l.w, cs);
        if dir.Some? {
          SavedQuiet(env, w, l.w, install, compose.value, env.toml.encode(newState), dir.value);
          QuietRestorable(env, install, g, w, t.w, dir.value);
        }
        SettleGood(env, install, g, t.w, now, dir, newState);
      }
    }
  }

  lemma SavedQuiet(env: Env, w: World, v: World, install: string, compose: Bytes, state: Bytes, at: DateTime)
    requires Idle(w, v)
    ensures Quiet(w, RunAll(env.remote, v, DeployCommands(install, compose, state)).w, PlaceOf(install, SavedState(at)))
  {
    hide RunAll, DeployCommands, PlaceOf, Idle, Quiet;
    var l := PlaceOf(install, SavedState(at));
    IdleIsQuiet(w, v, l);
    DeployCommandsQuiet(env.remote, v, install, compose, state, SavedState(at));
    QuietTransitive(w, v, RunAll(env.remote, v, DeployCommands(install, compose, state)).w, l);
  }

  lemma UpdateGood(env: Env, install: string, g: Origin, w: World, opts: UpdateOptions)
    requires IsFaithful(env.toml) && IsGood(env, install, g, w)
    ensures IsGood(env, install, g, Update(env, w, install, opts).w)
  {
    hide LoadState, TakeBackup, Deploy, BackupDir, IsGood, IsGoodState, PlaceOf, CheckPins, WasSpoiled;
    var s, c := LoadState(env, w, install), CheckUpdates(env, w, install);
    CheckUpdatesIdle(env, w, install);
    IdleGood(env, install, g, w, c.w);
    LoadStateIdle(env, c.w, install);
    if c.r.Ok? {
      IdleGood(env, install, g, c.w, LoadState(env, c.w, install).w);
      LiveIsGood(env, install, g, w);
      LoadStateReads(env, w, install);
      ReplaceGood(env, install, g, c.w, opts, |s.w.trail|, s.r.value);
    }
  }

  lemma ReplaceGood(env: Env, install: string, g: Origin, w: World, opts: UpdateOptions, at: nat, read: RelayState)
    requires IsFaithful(env.toml) && IsGood(env, install, g, w)
    requires CheckPins(env, at, read.images, 0).Ok? && (WasSpoiled(env.remote, install, w) || IsGoodState(env, g, read))
    requires At(w.fs, PlaceOf(install, State)).Some?
             ==> env.toml.decode(At(w.fs, PlaceOf(install, State)).value) == Some(read)
    ensures IsGood(env, install, g, Replace(env, w, install, opts, CheckPins(env, at, read.images, 0).value).w)
  {
    hide TakeBackup, Deploy, BackupDir, IsGood, IsGoodState, PlaceOf, CheckPins, WasSpoiled, IsRestorable;
    var now := env.wall(|w.trail|);
    if opts.skipBackup {
      DeployGood(env, install, g, w, opts, now, None, at, read);
    } else {
      var b := TakeBackup(env, w, install, BackupDir(install, now));
      BackupGood(env, install, g, w, now);
      TakeBackupQuiet(env, w, install, now, State);
      if WasSpoiled(env.remote, install, w) {
        SpoiledGrows(env.remote, install, w, b.w);
      }
      if b.r.Ok? {
        BackupRestorable(env, install, g, w, now);
        DeployGood(env, install, g, b.w, opts, now, Some(now), at, read);
      }
    }
  }

  lemma SpoiledGrows(s: Schedule, install: string, w: World, v: World)
    requires WasSpoiled(s, install, w) && w.trail <= v.trail
    ensures WasSpoiled(s, install, v)
  {
    hide IsSpoiled;
    SpoiledLater(s, install, w.trail, v.trail, |w.trail|, |v.trail|, LiveState(install));
  }

  /** What a backup just saved is what the live file held. */
  lemma BackupRestorable(env: Env, install: string, g: Origin, w: World, at: DateTime)
    requires IsGood(env, install, g, w) && TakeBackup(env, w, install, BackupDir(install, at)).r.Ok?
    ensures IsRestorable(env, install, g, TakeBackup(env, w, install, BackupDir(install, at)).w, at)
  {
    hide TakeBackup, BackupDir, PlaceOf, LiveState, IsStateLocation, IsSpoiled, IsGoodText;
    var v := TakeBackup(env, w, install, BackupDir(install, at)).w;
    BackupTaken(env, w, install, at);
    TakeBackupQuiet(env, w, install, at, State);
    LivePlace(install);
    LiveIsState(install);
    assert IsSound(env, install, g, w, LiveState(install));
    if WasSpoiled(env.remote, install, w) {
      SpoiledGrows(env.remote, install, w, v);
    }
  }

  // ---------------------------------------------------------------------------
  // Bootstrap
  // ---------------------------------------------------------------------------

  /** No state file now or at any step so far. */
  predicate IsBlankFs(install: string, fs: Fs) {
    forall l :: l in fs.files ==> !IsStateLocation(install, l)
  }

  predicate IsBlank(install: string, w: World) {
    IsBlankFs(install, w.fs) && forall i :: 0 <= i < |w.trail| ==> IsBlankFs(install, w.trail[i].fs)
  }

  lemma BlankIsGood(env: Env, install: string, g: Origin, w: World)
    requires IsBlank(install, w)
    ensures IsGood(env, install, g, w)
  {
    hide IsStateLocation, IsGoodText, IsSpoiled;
  }

  lemma IdleBlank(install: string, w: World, v: World)
    requires IsBlank(install, w) && Idle(w, v)
    ensures IsBlank(install, v)
  {
    hide IsBlankFs;
    forall i | 0 <= i < |v.trail|
      ensures IsBlankFs(install, v.trail[i].fs)
    {
      if i < |w.trail| {
        assert v.trail[i] == w.trail[i];
      }
    }
  }

  lemma MkdirBlank(s: Schedule, install: string, w: World, path: string)
    requires IsBlank(install, w)
    ensures IsBlank(install, ExecOk(s, w, MkdirP(path)).w)
  {
    hide Do, IsStateLocation;
    var v := Do(s, w, MkdirP(path)).w;
    forall l
      ensures Quiet(w, v, l)
    {
      DoQuiet(s, w, MkdirP(path), l);
    }
    assert Quiet(w, v, []);
    forall i, l | 0 <= i < |v.trail| && l in v.trail[i].fs.files
      ensures !IsStateLocation(install, l)
    {
      if i < |w.trail| {
        assert v.trail[i] == w.trail[i];
      } else {
        assert Quiet(w, v, l);
        assert At(v.trail[i].fs, l) == At(w.fs, l);
      }
    }
    forall l | l in v.fs.files
      ensures !IsStateLocation(install, l)
    {
      assert Quiet(w, v, l);
      assert At(v.fs, l) == At(w.fs, l);
    }
  }

  lemma {:induction false} FreshPins(env: Env, at: nat, opts: BootstrapOptions, now: DateTime, i: nat)
    requires i <= |opts.services| && ResolvePins(env, at, opts, now, i).Ok?
    ensures var ps := ResolvePins(env, at, opts, now, i).value;
            forall j :: i <= j < |opts.services| ==>
              && ps[j - i] == ImagePin(opts.services[j], opts.repo, opts.tag, ps[j - i].digest, now)
              && env.registry.digest(at, j, opts.repo, opts.tag) == Some(ps[j - i].digest)
    decreases |opts.services| - i
  {
    if i < |opts.services| {
      FreshPins(env, at, opts, now, i + 1);
    }
  }

  lemma FreshStateGood(env: Env, at: nat, opts: BootstrapOptions, now: DateTime)
    requires IsFaithful(env.toml) && ResolvePins(env, at, opts, now, 0).Ok?
    requires RenderPins(opts.template, ResolvePins(env, at, opts, now, 0).value).Ok?
    ensures var state := NewBootstrap(now, opts.version, ResolvePins(env, at, opts, now, 0).value);
            IsGoodText(env, OriginOf(state), env.toml.encode(state))
  {
    hide RenderPins;
    FreshPins(env, at, opts, now, 0);
    var ps := ResolvePins(env, at, opts, now, 0).value;
    forall j | 0 <= j < |ps|
      ensures env.registry.digest(at, j, ps[j].repo, ps[j].tag) == Some(ps[j].digest)
    {
      assert ps[j - 0] == ImagePin(opts.services[j], opts.repo, opts.tag, ps[j - 0].digest, now);
    }
    ResolvedPins(env, at, ps, opts.template);
  }

  lemma InstallCommandsGood(env: Env, install: string, g: Origin, w: World, compose: Bytes, envText: Bytes, state: Bytes)
    requires IsGood(env, install, g, w) && IsGoodText(env, g, state)
    ensures IsGood(env, install, g, RunAll(env.remote, w, InstallCommands(install, compose, envText, state)).w)
  {
    hide RunAll, IsBenign, IsGood, IsGoodText, PathOf, ComposePath, EnvPath, StatePath, DataPath, BackupsPath;
    HelpersNamePlaces(install, Instant(0, 1970, 1, 1, 0, 0, 0));
    var cs := InstallCommands(install, compose, envText, state);
    OthersBenign(env, install, g, cs[0]);
    OthersBenign(env, install, g, cs[1]);
    OthersBenign(env, install, g, cs[2]);
    WriteBenign(env, install, g, Compose, compose);
    WriteBenign(env, install, g, Place.Env, envText);
    WriteBenign(env, install, g, State, state);
    UpBenign(env, install, g);
    RunAllGood(env, install, g, w, cs);
  }

  /** The invariant of whole runs: no state file has ever existed, or the install directory is there
      and every state file so far has one origin. */
  ghost predicate Invariant(env: Env, install: string, w: World) {
    IsBlank(install, w) || (Locate(install) in w.fs.dirs && exists g: Origin :: IsGood(env, install, g, w))
  }

  lemma IdleInvariant(env: Env, install: string, w: World, v: World)
    requires Invariant(env, install, w) && Idle(w, v)
    ensures Invariant(env, install, v)
  {
    hide Locate, IsBlank, IsGood;
    if IsBlank(install, w) {
      IdleBlank(install, w, v);
    } else {
      var g: Origin :| IsGood(env, install, g, w);
      IdleGood(env, install, g, w, v);
    }
  }

  lemma InstallInvariant(env: Env, install: string, w: World, compose: Bytes, envText: Bytes, state: RelayState)
    requires IsBlank(install, w)
    requires IsGoodText(env, OriginOf(state), env.toml.encode(state))
    ensures Invariant(env, install, RunAll(env.remote, w, InstallCommands(install, compose, envText, env.toml.encode(state))).w)
  {
    hide ExecOk, Locate, IsBlank, IsGood, IsGoodText;
    var g, cs := OriginOf(state), InstallCommands(install, compose, envText, env.toml.encode(state));
    BlankIsGood(env, install, g, w);
    InstallCommandsGood(env, install, g, w, compose, envText, env.toml.encode(state));
    MkdirBlank(env.remote, install, w, install);
    var t := ExecOk(env.remote, w, MkdirP(install));
    if t.r.Ok? {
      assert Succeeds(env.remote, w, MkdirP(install));
      MkdirSuccess(env.remote, w, install);
      RunAllKeepsDir(env.remote, t.w, cs[1..], Locate(install));
      assert RunAll(env.remote, w, cs) == RunAll(env.remote, t.w, cs[1..]);
    }
  }

  lemma FreshInvariant(env: Env, install: string, w: World, opts: BootstrapOptions, os: OsKind)
    requires IsFaithful(env.toml) && IsBlank(install, w)
    ensures Invariant(env, install, Fresh(env, w, install, opts, os).w)
  {
    hide RunAll, RenderPins, ResolvePins, HealthCheck, WithKey, InstallCommands, Invariant, IsBlank, IsGoodText;
    var now, at := env.wall(|w.trail|), |w.trail|;
    BlankInvariant(env, install, w);
    var pins := ResolvePins(env, at, opts, now, 0);
    if pins.Ok? {
      var compose := RenderPins(opts.template, pins.value);
      if compose.Ok? {
        var state := NewBootstrap(now, opts.version, pins.value);
        FreshStateGood(env, at, opts, now);
        InstallInvariant(env, install, w, compose.value, opts.envContents, state);
        var t := RunAll(env.remote, w, InstallCommands(install, compose.value, opts.envContents, env.toml.encode(state)));
        SettledInstall(env, install, t.w, state, os);
      }
    }
  }

  lemma SettledInstall(env: Env, install: string, w: World, state: RelayState, os: OsKind)
    requires Invariant(env, install, w)
    ensures var h := HealthCheck(env, w);
            Invariant(env, install, h.w) && Invariant(env, install, WithKey(env, h.w, install, state, false, os).w)
  {
    hide HealthCheck, WithKey, Invariant;
    HealthCheckIdle(env, w);
    var h := HealthCheck(env, w);
    IdleInvariant(env, install, w, h.w);
    WithKeyIdle(env, h.w, install, state, false, os);
    IdleInvariant(env, install, h.w, WithKey(env, h.w, install, state, false, os).w);
  }

  lemma BlankInvariant(env: Env, install: string, w: World)
    requires IsBlank(install, w)
    ensures Invariant(env, install, w)
  {
  }

  lemma WithKeyIdle(env: Env, w: World, install: string, state: RelayState, already: bool, os: OsKind)
    ensures Idle(w, WithKey(env, w, install, state, already, os).w)
  {
    hide Do;
    DoIdle(env.remote, w, CatFile(KeyPath(install)));
  }

  lemma ExitsZeroIdle(env: Env, w: World, c: Cmd)
    requires IsReading(c)
    ensures Idle(w, ExitsZero(env, w, c).w)
  {
    hide Do;
    DoIdle(env.remote, w, c);
  }

  lemma SurveyIdle(env: Env, w: World, install: string, hint: Option<OsKind>)
    ensures Idle(w, Survey(env, w, install, hint).w)
  {
    hide Idle, DetectOs, EnsureDockerStack, ExitsZero;
    DetectIdle(env, w, hint);
    var o := DetectOs(env, w, hint);
    StackIdle(env, o.w);
    var d := EnsureDockerStack(env, o.w);
    IdleTransitive(w, o.w, d.w);
    ExitsZeroIdle(env, d.w, TestDirExists(install));
    IdleTransitive(w, d.w, ExitsZero(env, d.w, TestDirExists(install)).w);
  }

  lemma DetectIdle(env: Env, w: World, hint: Option<OsKind>)
    ensures Idle(w, DetectOs(env, w, hint).w)
  {
    hide Do;
    DoIdle(env.remote, w, ReadOsRelease);
  }

  lemma StackIdle(env: Env, w: World)
    ensures Idle(w, EnsureDockerStack(env, w).w)
  {
    hide Idle, ExitsZero;
    ExitsZeroIdle(env, w, CheckDockerPresent);
    var d := ExitsZero(env, w, CheckDockerPresent);
    ExitsZeroIdle(env, d.w, CheckComposeV2);
    var v2 := ExitsZero(env, d.w, CheckComposeV2);
    IdleTransitive(w, d.w, v2.w);
    ExitsZeroIdle(env, v2.w, CheckComposeV1);
    IdleTransitive(w, v2.w, ExitsZero(env, v2.w, CheckComposeV1).w);
  }

  lemma ExistingIdle(env: Env, w: World, install: string, os: OsKind)
    ensures Idle(w, Existing(env, w, install, os).w)
  {
    hide Do, Idle, WithKey;
    var p := StatePath(install);
    DoIdle(env.remote, w, TestFileExists(p));
    var t := Do(env.remote, w, TestFileExists(p));
    DoIdle(env.remote, t.w, CatFile(p));
    var s := ReadState(env, t.w, install);
    IdleTransitive(w, t.w, s.w);
    if s.r.Ok? {
      WithKeyIdle(env, s.w, install, s.r.value, true, os);
      IdleTransitive(w, s.w, WithKey(env, s.w, install, s.r.value, true, os).w);
    }
  }

  /** The survey finds the install directory exactly when it is there and the test does not hide it. */
  lemma SurveyFinds(env: Env, w: World, install: string, hint: Option<OsKind>)
    ensures var s := Survey(env, w, install, hint);
            s.r.Ok? ==> (s.r.value.1 <==> Locate(install) in w.fs.dirs && SeesDirs(w, s.w))
  {
    hide Idle, DetectOs, EnsureDockerStack, ExitsZero, Locate, SeesDirs, SeesFiles;
    DetectIdle(env, w, hint);
    DetectSees(env, w, hint);
    var o := DetectOs(env, w, hint);
    StackIdle(env, o.w);
    StackSees(env, o.w);
    var d := EnsureDockerStack(env, o.w);
    IdleTransitive(w, o.w, d.w);
    SeesTransitive(w, o.w, d.w);
    DirTestFinds(env, d.w, install);
    IdleSameFs(w, d.w);
    var t := ExitsZero(env, d.w, TestDirExists(install));
    ExitsZeroIdle(env, d.w, TestDirExists(install));
    SeesSplits(w, d.w, t.w);
  }

  lemma IdleSameFs(w: World, v: World)
    requires Idle(w, v)
    ensures v.fs == w.fs
  {
  }

  lemma SeesTransitive(u: World, v: World, w: World)
    requires SeesDirs(u, v) && SeesDirs(v, w)
    ensures SeesDirs(u, w)
  {
    hide HidesDir;
    forall i | |u.trail| <= i < |w.trail|
      ensures !HidesDir(w.trail[i])
    {
      if i < |v.trail| {
        assert w.trail[i] == v.trail[i];
      }
    }
  }

  lemma SeesSplits(u: World, v: World, w: World)
    requires SeesDirs(u, v) && Idle(v, w)
    ensures SeesDirs(u, w) <==> SeesDirs(v, w)
  {
    hide HidesDir;
    if SeesDirs(v, w) {
      SeesTransitive(u, v, w);
    }
  }

  lemma DetectSees(env: Env, w: World, hint: Option<OsKind>)
    ensures SeesDirs(w, DetectOs(env, w, hint).w)
  {
    hide Do;
    DoSees(env.remote, w, ReadOsRelease);
  }

  lemma StackSees(env: Env, w: World)
    ensures SeesDirs(w, EnsureDockerStack(env, w).w)
  {
    hide Do, SeesDirs, SeesFiles;
    DoSees(env.remote, w, CheckDockerPresent);
    var d := Do(env.remote, w, CheckDockerPresent);
    DoSees(env.remote, d.w, CheckComposeV2);
    var v2 := Do(env.remote, d.w, CheckComposeV2);
    SeesTransitive(w, d.w, v2.w);
    DoSees(env.remote, v2.w, CheckComposeV1);
    SeesTransitive(w, v2.w, Do(env.remote, v2.w, CheckComposeV1).w);
  }

  lemma DirTestFinds(env: Env, w: World, install: string)
    ensures var t := ExitsZero(env, w, TestDirExists(install));
            t.r.Ok? ==> (t.r.value <==> Locate(install) in w.fs.dirs && SeesDirs(w, t.w))
  {
    hide Locate, Accepts;
    var t := ExitsZero(env, w, TestDirExists(install));
    assert Script(TestDirExists(install)) == [TestDir(install)];
    if t.r.Ok? {
      var e := t.w.trail[|w.trail|];
      assert |t.w.trail| == |w.trail| + 1 && e.prim == TestDir(install) && e.fs == w.fs;
      assert SeesDirs(w, t.w) <==> !HidesDir(e);
    }
  }

  /** Once a test hid the directory, nothing more is promised. */
  lemma HiddenSpoils(env: Env, install: string, g: Origin, w: World, v: World)
    requires IsGood(env, install, g, w) && Idle(w, v) && !SeesDirs(w, v)
    ensures IsGood(env, install, g, v) && WasSpoiled(env.remote, install, v)
  {
    hide IsGood, HidesDir, IsTorn, LiveState;
    IdleGood(env, install, g, w, v);
    var i :| |w.trail| <= i < |v.trail| && HidesDir(v.trail[i]);
    assert IsSpoiling(env.remote, install, v.trail, i, LiveState(install));
  }

  /** A bootstrap over an existing install that a test hid. */
  lemma OverwriteInvariant(env: Env, install: string, g: Origin, w: World, opts: BootstrapOptions, os: OsKind)
    requires IsGood(env, install, g, w) && WasSpoiled(env.remote, install, w) && Locate(install) in w.fs.dirs
    ensures Invariant(env, install, Fresh(env, w, install, opts, os).w)
  {
    hide RunAll, RenderPins, ResolvePins, HealthCheck, WithKey, InstallCommands, IsGood, IsBlank, WasSpoiled, Locate;
    var now, at := env.wall(|w.trail|), |w.trail|;
    var pins := ResolvePins(env, at, opts, now, 0);
    if pins.Ok? && RenderPins(opts.template, pins.value).Ok? {
      var state := NewBootstrap(now, opts.version, pins.value);
      var cs := InstallCommands(install, RenderPins(opts.template, pins.value).value, opts.envContents, env.toml.encode(state));
      RunAllGood(env, install, g, w, cs);
      InstallRemovesNothing(install, RenderPins(opts.template, pins.value).value, opts.envContents, env.toml.encode(state));
      RunAllDir(env.remote, w, cs, Locate(install));
      SettledInstall(env, install, RunAll(env.remote, w, cs).w, state, os);
    }
  }

  lemma InstallRemovesNothing(install: string, compose: Bytes, envText: Bytes, state: Bytes)
    ensures forall c :: c in InstallCommands(install, compose, envText, state) ==> !c.RemoveTree?
  {
    hide DataPath, BackupsPath, ComposePath, EnvPath, StatePath;
  }

  lemma BootstrapInvariant(env: Env, install: string, w: World, opts: BootstrapOptions)
    requires IsFaithful(env.toml) && Invariant(env, install, w)
    ensures Invariant(env, install, Bootstrap(env, w, install, opts).w)
  {
    hide Survey, Existing, Fresh, IsBlank, IsGood, Locate, Idle, SeesDirs, WasSpoiled;
    var s := Survey(env, w, install, opts.osHint);
    SurveyIdle(env, w, install, opts.osHint);
    IdleInvariant(env, install, w, s.w);
    IdleSameFs(w, s.w);
    if s.r.Ok? {
      var (os, present) := s.r.value;
      SurveyFinds(env, w, install, opts.osHint);
      ExistingIdle(env, s.w, install, os);
      IdleInvariant(env, install, s.w, Existing(env, s.w, install, os).w);
      if !present {
        if IsBlank(install, w) {
          IdleBlank(install, w, s.w);
          FreshInvariant(env, install, s.w, opts, os);
        } else {
          var g: Origin :| IsGood(env, install, g, w);
          HiddenSpoils(env, install, g, w, s.w);
          OverwriteInvariant(env, install, g, s.w, opts, os);
        }
      }
    }
  }

  // ---------------------------------------------------------------------------
  // Any sequence of calls
  // ---------------------------------------------------------------------------

  datatype Op = BootstrapOp(boot: BootstrapOptions) | CheckOp | UpdateOp(update: UpdateOptions)

  function RunOp(env: Env, w: World, install: string, op: Op): World {
    match op
    case BootstrapOp(boot) => Bootstrap(env, w, install, boot).w
    case CheckOp => CheckUpdates(env, w, install).w
    case UpdateOp(update) => Update(env, w, install, update).w
  }

  function RunOps(env: Env, w: World, install: string, ops: seq<Op>): World
    decreases |ops|
  {
    if ops == [] then w else RunOps(env, RunOp(env, w, install, ops[0]), install, ops[1..])
  }

  lemma UpdateInvariant(env: Env, install: string, w: World, opts: UpdateOptions)
    requires IsFaithful(env.toml) && Invariant(env, install, w)
    ensures Invariant(env, install, Update(env, w, install, opts).w)
  {
    hide Update, IsBlank, IsGood, Locate, Idle;
    if IsBlank(install, w) {
      BlankUpdateIdle(env, install, w, opts);
      IdleInvariant(env, install, w, Update(env, w, install, opts).w);
    } else {
      var g: Origin :| IsGood(env, install, g, w);
      UpdateGood(env, install, g, w, opts);
      UpdateKeepsDir(env, install, w, opts);
    }
  }

  // The install directory outlives every update.

  lemma RunAllDir(s: Schedule, w: World, cs: seq<Cmd>, d: Location)
    requires d in w.fs.dirs && forall c :: c in cs ==> !c.RemoveTree?
    ensures d in RunAll(s, w, cs).w.fs.dirs
  {
    hide RunAll;
    RunAllKeepsDir(s, w, cs, d);
  }

  lemma {:induction false} DeleteAllDir(env: Env, w: World, doomed: seq<Entry>, deleted: seq<string>, d: Location)
    requires d in w.fs.dirs && forall e :: e in doomed ==> !(Locate(e.path) <= d)
    ensures d in DeleteAll(env, w, doomed, deleted).w.fs.dirs
    decreases |doomed|
  {
    hide Do, Locate;
    if doomed != [] {
      var c := RemoveTree(doomed[0].path);
      assert doomed[0] in doomed;
      DoKeepsDir(env.remote, w, c, d);
      var t := ExecOk(env.remote, w, c);
      if t.r.Ok? {
        DeleteAllDir(env, t.w, doomed[1..], deleted + [doomed[0].path], d);
      }
    }
  }

  lemma GcDir(env: Env, w: World, install: string, now: DateTime)
    requires Locate(install) in w.fs.dirs
    ensures Locate(install) in GcBackups(env, w, install, now).w.fs.dirs
  {
    hide Do, Locate, ParseListing, Doomed, DeleteAll, BackupsPath;
    var c := FindBackups(BackupsPath(install));
    DoIdle(env.remote, w, c);
    var t := Do(env.remote, w, c);
    if t.r.Ok? && t.r.value.code == 0 {
      forall e | e in GcDoomed(env, w, install, now)
        ensures !(Locate(e.path) <= Locate(install))
      {
        var _ := DoomedAreBackups(env, w, install, now, e);
      }
      DeleteAllDir(env, t.w, GcDoomed(env, w, install, now), [], Locate(install));
    }
  }

  lemma SettleDir(env: Env, w: World, install: string, now: DateTime, dir: Option<string>, newState: RelayState)
    requires Locate(install) in w.fs.dirs
    ensures Locate(install) in Settle(env, w, install, now, dir, newState).w.fs.dirs
  {
    hide HealthCheck, GcBackups, RunAll, Locate, RestoreCommands;
    var h := HealthCheck(env, w);
    HealthCheckIdle(env, w);
    GcDir(env, h.w, install, now);
    if dir.Some? {
      var cs := RestoreCommands(install, dir.value);
      RestoreRemovesNothing(install, dir.value);
      RunAllDir(env.remote, h.w, cs, Locate(install));
      HealthCheckIdle(env, RunAll(env.remote, h.w, cs).w);
    }
  }

  lemma RestoreRemovesNothing(install: string, dir: string)
    ensures forall c :: c in RestoreCommands(install, dir) ==> !c.RemoveTree?
    ensures forall c :: c in BackupCommands(install, dir) ==> !c.RemoveTree?
  {
  }

  lemma DeployDir(env: Env, w: World, install: string, opts: UpdateOptions, images: seq<ImageUpdate>, now: DateTime,
                  dir: Option<string>)
    requires Locate(install) in w.fs.dirs
    ensures Locate(install) in Deploy(env, w, install, opts, images, now, dir).w.fs.dirs
  {
    hide LoadState, RunAll, RenderPins, Settle, Locate;
    var l := LoadState(env, w, install);
    LoadStateIdle(env, w, install);
    if l.r.Ok? {
      var newState := ApplyUpdate(l.r.value, PinsOf(images, now), now);
      var compose := RenderPins(opts.template, PinsOf(images, now));
      if compose.Ok? {
        var cs := DeployCommands(install, compose.value, env.toml.encode(newState));
        RunAllDir(env.remote, l.w, cs, Locate(install));
        SettleDir(env, RunAll(env.remote, l.w, cs).w, install, now, dir, newState);
      }
    }
  }

  lemma BackupKeepsDir(env: Env, w: World, install: string, dir: string)
    requires Locate(install) in w.fs.dirs
    ensures Locate(install) in TakeBackup(env, w, install, dir).w.fs.dirs
  {
    hide Do, RunAll, Locate, BackupCommands;
    RestoreRemovesNothing(install, dir);
    RunAllDir(env.remote, w, BackupCommands(install, dir), Locate(install));
    var t := RunAll(env.remote, w, BackupCommands(install, dir));
    DoIdle(env.remote, t.w, ComposeConfig(install));
    var c := Do(env.remote, t.w, ComposeConfig(install));
    if c.r.Ok? {
      RunAllDir(env.remote, c.w, [WriteFile(PosixJoin(dir, CONFIG_FILE), c.r.value.stdout)], Locate(install));
    }
  }

  lemma UpdateKeepsDir(env: Env, install: string, w: World, opts: UpdateOptions)
    requires Locate(install) in w.fs.dirs
    ensures Locate(install) in Update(env, w, install, opts).w.fs.dirs
  {
    hide CheckUpdates, LoadState, TakeBackup, Deploy, BackupDir, Locate;
    CheckUpdatesIdle(env, w, install);
    var c := CheckUpdates(env, w, install);
    LoadStateIdle(env, c.w, install);
    if c.r.Ok? && AnyUpdate(c.r.value) {
      var now := env.wall(|c.w.trail|);
      var dir := BackupDir(install, now);
      BackupKeepsDir(env, c.w, install, dir);
      DeployDir(env, c.w, install, opts, c.r.value, now, None);
      DeployDir(env, TakeBackup(env, c.w, install, dir).w, install, opts, c.r.value, now, Some(dir));
    }
  }

  /** Without a state file an update changes nothing. */
  lemma BlankUpdateIdle(env: Env, install: string, w: World, opts: UpdateOptions)
    requires IsBlank(install, w)
    ensures Idle(w, Update(env, w, install, opts).w)
  {
    hide LoadState, Replace, Locate, IsStateLocation;
    CheckUpdatesIdle(env, w, install);
    if LoadState(env, w, install).r.Ok? {
      LoadStateReads(env, w, install);
      StatePlaces(install, State, false);
    }
  }

  lemma OpInvariant(env: Env, install: string, w: World, op: Op)
    requires IsFaithful(env.toml) && Invariant(env, install, w)
    ensures Invariant(env, install, RunOp(env, w, install, op))
  {
    hide Bootstrap, CheckUpdates, Update, Invariant;
    match op
    case BootstrapOp(boot) => BootstrapInvariant(env, install, w, boot);
    case CheckOp =>
      CheckUpdatesIdle(env, w, install);
      IdleInvariant(env, install, w, CheckUpdates(env, w, install).w);
    case UpdateOp(update) => UpdateInvariant(env, install, w, update);
  }

  lemma {:induction false} RunInvariant(env: Env, install: string, w: World, ops: seq<Op>)
    requires IsFaithful(env.toml) && Invariant(env, install, w)
    ensures Invariant(env, install, RunOps(env, w, install, ops))
    decreases |ops|
  {
    hide RunOp, Invariant;
    if ops != [] {
      OpInvariant(env, install, w, ops[0]);
      RunInvariant(env, install, RunOp(env, w, install, ops[0]), ops[1..]);
    }
  }

  /** Whole runs: after any calls in any order with any failures, from a host on which no state file
      has ever existed, one origin covers every state file that was ever live or backed up: a backed-up
      one up to a `cp` torn halfway onto it, and all of them up to one torn onto the live state file or
      a `test -d` that hid the install directory from a bootstrap. */
  lemma OneOrigin(env: Env, install: string, w: World, ops: seq<Op>)
    requires IsFaithful(env.toml) && IsBlank(install, w)
    ensures exists g: Origin :: IsGood(env, install, g, RunOps(env, w, install, ops))
  {
    hide Invariant, IsBlank, IsGood, RunOps, Locate;
    BlankInvariant(env, install, w);
    RunInvariant(env, install, w, ops);
    InvariantGood(env, install, RunOps(env, w, install, ops));
  }

  lemma InvariantGood(env: Env, install: string, w: World)
    requires Invariant(env, install, w)
    ensures exists g: Origin :: IsGood(env, install, g, w)
  {
    hide IsBlank, IsGood, Locate;
    if IsBlank(install, w) {
      var g := Origin(Instant(0, 1970, 1, 1, 0, 0, 0), "", [], []);
      BlankIsGood(env, install, g, w);
      assert IsGood(env, install, g, w);
    }
  }

  lemma GoodAt(env: Env, install: string, g: Origin, w: World, i: nat, l: Location)
    requires IsGood(env, install, g, w) && IsStateLocation(install, l) && i < |w.trail| && l in w.trail[i].fs.files
    requires !IsSpoiled(env.remote, install, w.trail, i + 1, l)
    ensures IsGoodText(env, g, w.trail[i].fs.files[l])
  {
    hide IsStateLocation, IsSpoiled, IsGoodText;
    assert IsSound(env, install, g, w, l);
  }

  /** In particular any two of those state files, at any two steps, agree on what the bootstrap fixed. */
  lemma SameOrigin(env: Env, install: string, w: World, ops: seq<Op>, i: nat, j: nat, l: Location, m: Location)
    requires IsFaithful(env.toml) && IsBlank(install, w)
    requires i < |RunOps(env, w, install, ops).trail| && j < |RunOps(env, w, install, ops).trail|
    requires IsStateLocation(install, l) && l in RunOps(env, w, install, ops).trail[i].fs.files
    requires IsStateLocation(install, m) && m in RunOps(env, w, install, ops).trail[j].fs.files
    requires !IsSpoiled(env.remote, install, RunOps(env, w, install, ops).trail, i + 1, l)
    requires !IsSpoiled(env.remote, install, RunOps(env, w, install, ops).trail, j + 1, m)
    ensures var a := env.toml.decode(RunOps(env, w, install, ops).trail[i].fs.files[l]);
            var b := env.toml.decode(RunOps(env, w, install, ops).trail[j].fs.files[m]);
            && a.Some? && b.Some? && OriginOf(a.value) == OriginOf(b.value)
            && (forall p :: p in a.value.images + b.value.images ==> IsResolved(env, p))
  {
    hide RunOps, IsBlank, IsResolved, IsStateLocation, IsSpoiled, IsGood;
    OneOrigin(env, install, w, ops);
    var v := RunOps(env, w, install, ops);
    var g: Origin :| IsGood(env, install, g, v);
    GoodAt(env, install, g, v, i, l);
    GoodAt(env, install, g, v, j, m);
  }
}
