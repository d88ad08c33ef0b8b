// A run depends only on the part of the schedule it uses, so that one step can be changed without
// changing what came before it.
module Locality {
  import opened Wrappers
  import opened Text
  import opened Paths
  import opened Listing
  import opened Commands
  import opened Shell
  import opened State
  import opened Protocol
  import opened Recovery
  import opened Progress

  // ---------------------------------------------------------------------------
  // A run depends only on the part of the schedule it uses
  // ---------------------------------------------------------------------------

  /** The two schedules agree on the first `k` steps. */
  ghost predicate Agree(s: Schedule, t: Schedule, k: nat) {
    forall j: nat :: j < k ==>
      s.outcome(j) == t.outcome(j) && s.lost(j) == t.lost(j) && s.delay(j) == t.delay(j) && s.oversleep(j) == t.oversleep(j)
  }

  lemma {:induction false} ScriptLocal(s: Schedule, t: Schedule, k: nat, w: World, cwd: Location, prims: seq<Prim>)
    requires Agree(s, t, k) && prims != [] && |RunScript(s, w, cwd, prims).w.trail| <= k
    ensures RunScript(t, w, cwd, prims) == RunScript(s, w, cwd, prims)
    decreases |prims|
  {
    hide Apply;
    assert s.outcome(|w.trail|) == t.outcome(|w.trail|);
    var e := Apply(prims[0], cwd, w.fs, w.running, s.outcome(|w.trail|));
    if e.code == 0 && |prims| > 1 {
      ScriptLocal(s, t, k, After(w, prims[0], e), e.cwd, prims[1..]);
    }
  }

  lemma DoLocal(s: Schedule, t: Schedule, k: nat, w: World, c: Cmd)
    requires Agree(s, t, k) && |Do(s, w, c).w.trail| <= k
    ensures Do(t, w, c) == Do(s, w, c)
  {
    hide Accepts, RunScript, Script;
    if Accepts(c) {
      ScriptLocal(s, t, k, w, [], Script(c));
      assert |w.trail| < k;
      assert s.lost(|w.trail|) == t.lost(|w.trail|) && s.delay(|w.trail|) == t.delay(|w.trail|);
    }
  }

  lemma ExecLocal(s: Schedule, t: Schedule, k: nat, w: World, c: Cmd)
    requires Agree(s, t, k) && |ExecOk(s, w, c).w.trail| <= k
    ensures ExecOk(t, w, c) == ExecOk(s, w, c)
  {
    hide Do, Agree;
    DoLocal(s, t, k, w, c);
  }

  lemma {:induction false} RunAllLocal(s: Schedule, t: Schedule, k: nat, w: World, cs: seq<Cmd>)
    requires Agree(s, t, k) && |RunAll(s, w, cs).w.trail| <= k
    ensures RunAll(t, w, cs) == RunAll(s, w, cs)
    decreases |cs|
  {
    hide ExecOk, Agree;
    if cs != [] {
      ExecLocal(s, t, k, w, cs[0]);
      var r := ExecOk(s, w, cs[0]);
      if r.r.Ok? {
        RunAllLocal(s, t, k, r.w, cs[1..]);
      }
    }
  }

  lemma ExitsLocal(env: Env, t: Schedule, k: nat, w: World, c: Cmd)
    requires Agree(env.remote, t, k) && |ExitsZero(env, w, c).w.trail| <= k
    ensures ExitsZero(env.(remote := t), w, c) == ExitsZero(env, w, c)
  {
    hide Do, Agree;
    DoLocal(env.remote, t, k, w, c);
  }

  lemma LoadLocal(env: Env, t: Schedule, k: nat, w: World, install: string)
    requires Agree(env.remote, t, k) && |LoadState(env, w, install).w.trail| <= k
    ensures LoadState(env.(remote := t), w, install) == LoadState(env, w, install)
  {
    hide ExitsZero, ReadState, StatePath, Agree;
    var e := ExitsZero(env, w, TestFileExists(StatePath(install)));
    ExitsLocal(env, t, k, w, TestFileExists(StatePath(install)));
    if e.r == Ok(true) {
      ReadLocal(env, t, k, e.w, install);
    }
  }

  lemma ReadLocal(env: Env, t: Schedule, k: nat, w: World, install: string)
    requires Agree(env.remote, t, k) && |ReadState(env, w, install).w.trail| <= k
    ensures ReadState(env.(remote := t), w, install) == ReadState(env, w, install)
  {
    hide ExecOk, StatePath, Agree;
    ExecLocal(env.remote, t, k, w, CatFile(StatePath(install)));
  }

  lemma {:induction false} PinsLocal(env: Env, t: Schedule, at: nat, pins: seq<ImagePin>, i: nat)
    requires i <= |pins|
    ensures CheckPins(env.(remote := t), at, pins, i) == CheckPins(env, at, pins, i)
    decreases |pins| - i
  {
    if i < |pins| {
      PinsLocal(env, t, at, pins, i + 1);
    }
  }

  lemma DecidedLocal(env: Env, t: Schedule, k: nat, w: World, install: string, opts: UpdateOptions)
    requires Agree(env.remote, t, k) && |LoadState(env, w, install).w.trail| <= k
    ensures CheckUpdates(env.(remote := t), w, install) == CheckUpdates(env, w, install)
    ensures Decided(env.(remote := t), w, install, opts) == Decided(env, w, install, opts)
  {
    hide LoadState, CheckPins, Agree;
    LoadLocal(env, t, k, w, install);
    var s := LoadState(env, w, install);
    if s.r.Ok? {
      PinsLocal(env, t, |s.w.trail|, s.r.value.images, 0);
    }
  }

  lemma SecuredLocal(env: Env, t: Schedule, k: nat, w: World, install: string, opts: UpdateOptions)
    requires Agree(env.remote, t, k) && |Secured(env, w, install, opts).w.trail| <= k
    ensures Secured(env.(remote := t), w, install, opts) == Secured(env, w, install, opts)
  {
    hide Do, RunAll, BackupCommands, BackupDir, Agree;
    if !opts.skipBackup {
      var dir := BackupDir(install, env.wall(|w.trail|));
      RunAllLocal(env.remote, t, k, w, BackupCommands(install, dir));
      var b := RunAll(env.remote, w, BackupCommands(install, dir));
      if b.r.Ok? {
        DoLocal(env.remote, t, k, b.w, ComposeConfig(install));
        var c := Do(env.remote, b.w, ComposeConfig(install));
        if c.r.Ok? {
          var cs := [WriteFile(PosixJoin(dir, CONFIG_FILE), c.r.value.stdout)];
          if c.r.value.code == 0 {
            RunAllLocal(env.remote, t, k, c.w, cs);
          }
        }
      }
    }
  }

  /** What a survey does before it looks for the directory, if it gets that far. */
  function Stacked(env: Env, w: World, hint: Option<OsKind>): World {
    EnsureDockerStack(env, DetectOs(env, w, hint).w).w
  }

  lemma StackLocal(env: Env, t: Schedule, k: nat, w: World, hint: Option<OsKind>)
    requires Agree(env.remote, t, k) && |Stacked(env, w, hint).trail| <= k
    requires DetectOs(env, w, hint).r.Ok? && EnsureDockerStack(env, DetectOs(env, w, hint).w).r.Ok?
    ensures DetectOs(env.(remote := t), w, hint) == DetectOs(env, w, hint)
    ensures var o := DetectOs(env, w, hint); EnsureDockerStack(env.(remote := t), o.w) == EnsureDockerStack(env, o.w)
  {
    hide ExitsZero, ExecOk, Agree;
    var o := DetectOs(env, w, hint);
    var d := ExitsZero(env, o.w, CheckDockerPresent);
    if hint.None? {
      ExecLocal(env.remote, t, k, w, ReadOsRelease);
    }
    ExitsLocal(env, t, k, o.w, CheckDockerPresent);
    ExitsLocal(env, t, k, d.w, CheckComposeV2);
  }

  lemma SurveyLocal(env: Env, t: Schedule, k: nat, w: World, install: string, hint: Option<OsKind>)
    requires Agree(env.remote, t, k) && Survey(env, w, install, hint).r.Ok? && |Survey(env, w, install, hint).w.trail| <= k
    ensures Survey(env.(remote := t), w, install, hint) == Survey(env, w, install, hint)
  {
    hide ExitsZero, DetectOs, EnsureDockerStack, Agree;
    StackLocal(env, t, k, w, hint);
    ExitsLocal(env, t, k, Stacked(env, w, hint), TestDirExists(install));
  }

  // ---------------------------------------------------------------------------
  // One failing step
  // ---------------------------------------------------------------------------

  /** The schedule with step `k` failing with exit code 1 after `delay`. It leaves nothing behind, but for
      a file being copied, which it leaves with the contents `left`, if any. */
  function Disturb(s: Schedule, k: nat, delay: nat, left: Option<Bytes>): Schedule {
    Schedule((j: nat) => if j == k then s.outcome(k).(exit := 1, torn := None, tornCopy := left) else s.outcome(j),
             s.lost,
             (j: nat) => if j == k then delay else s.delay(j),
             s.oversleep)
  }

  lemma Disturbed(s: Schedule, from: nat, k: nat, delay: nat, left: Option<Bytes>)
    requires IsCalm(s, from) && from <= k
    ensures var t := Disturb(s, k, delay, left);
            && Agree(s, t, k) && IsCalm(t, k + 1) && !t.lost(k) && t.delay(k) == delay
            && t.outcome(k).exit == 1 && t.outcome(k).torn == None && t.outcome(k).tornCopy == left
            && forall j: nat :: from <= j && j != k ==> t.outcome(j).exit == 0 && !t.lost(j)
  {
  }

  /** The schedule with step `k` listing something else. */
  function Relist(s: Schedule, k: nat, listing: seq<Listed>): Schedule {
    s.(outcome := (j: nat) => if j == k then s.outcome(k).(listing := listing) else s.outcome(j))
  }

  lemma Relisted(s: Schedule, from: nat, k: nat, listing: seq<Listed>)
    requires IsCalm(s, from)
    ensures var t := Relist(s, k, listing); Agree(s, t, k) && IsCalm(t, from) && t.outcome(k).listing == listing
  {
  }

  lemma AgreeEarlier(s: Schedule, t: Schedule, k: nat, m: nat)
    requires Agree(s, t, k) && m <= k
    ensures Agree(s, t, m)
  {
  }
}
