// The backup and the garbage collector: what each writes, copies and deletes, and what it leaves
// alone.
module UpdateFacts {
  import opened Wrappers
  import opened Paths
  import opened Validators
  import opened Listing
  import opened Commands
  import opened Shell
  import opened ShellFacts
  import opened Retention
  import opened Protocol
  import opened RunFacts

  // ---------------------------------------------------------------------------
  // The backup
  // ---------------------------------------------------------------------------

  lemma BackupPaths(install: string, at: DateTime)
    ensures BackupCommands(install, BackupDir(install, at)) ==
            [MkdirP(PathOf(install, Dir(at), false)),
             CopyFile(PathOf(install, Compose, false), PathOf(install, SavedCompose(at), false)),
             CopyFile(PathOf(install, State, false), PathOf(install, SavedState(at), false))]
    ensures RestoreCommands(install, BackupDir(install, at)) ==
            [CopyFile(PathOf(install, SavedCompose(at), false), PathOf(install, Compose, false)),
             CopyFile(PathOf(install, SavedState(at), false), PathOf(install, State, false)),
             ComposeUp(install)]
  {
    HelpersNamePlaces(install, at);
  }

  /** One copy between two places: the target gets the source's contents, other places keep theirs. */
  lemma CopyPlaces(s: Schedule, w: World, install: string, p: Place, q: Place, r: Place)
    requires Succeeds(s, w, CopyFile(PathOf(install, p, false), PathOf(install, q, false)))
    ensures var v := ExecOk(s, w, CopyFile(PathOf(install, p, false), PathOf(install, q, false))).w;
            && At(w.fs, PlaceOf(install, p)).Some?
            && At(v.fs, PlaceOf(install, q)) == At(w.fs, PlaceOf(install, p))
            && (!SamePlace(r, q) ==> At(v.fs, PlaceOf(install, r)) == At(w.fs, PlaceOf(install, r)))
  {
    hide Do, PathOf, SamePlace, MayChange, Succeeds;
    var c := CopyFile(PathOf(install, p, false), PathOf(install, q, false));
    CopySuccess(s, w, c.src, c.dst);
    if !SamePlace(r, q) {
      CopyChanges(install, c.src, q, r);
      DoQuiet(s, w, c, PlaceOf(install, r));
    }
  }

  /** Once the copies succeeded the backup holds the live compose and state files. */
  lemma BackupHolds(s: Schedule, w: World, install: string, at: DateTime)
    requires RunAll(s, w, BackupCommands(install, BackupDir(install, at))).r.Ok?
    ensures var v := RunAll(s, w, BackupCommands(install, BackupDir(install, at))).w;
            && At(w.fs, PlaceOf(install, Compose)).Some? && At(w.fs, PlaceOf(install, State)).Some?
            && At(v.fs, PlaceOf(install, SavedCompose(at))) == At(w.fs, PlaceOf(install, Compose))
            && At(v.fs, PlaceOf(install, SavedState(at))) == At(w.fs, PlaceOf(install, State))
  {
    hide ExecOk, PathOf, PlaceOf, RunAll, Succeeds;
    BackupPaths(install, at);
    var cs := BackupCommands(install, BackupDir(install, at));
    RunAllStep(s, w, cs);
    var w1 := ExecOk(s, w, cs[0]).w;
    assert cs[1..] == [cs[1], cs[2]] && cs[1..][1..] == [cs[2]] && [cs[2]][1..] == [];
    MkdirLeaves(s, w, cs[0], PlaceOf(install, Compose));
    MkdirLeaves(s, w, cs[0], PlaceOf(install, State));
    RunAllStep(s, w1, [cs[1], cs[2]]);
    var w2 := ExecOk(s, w1, cs[1]).w;
    CopyPlaces(s, w1, install, Compose, SavedCompose(at), State);
    RunAllStep(s, w2, [cs[2]]);
    CopyPlaces(s, w2, install, State, SavedState(at), SavedCompose(at));
    RunAllNone(s, ExecOk(s, w2, cs[2]).w);
  }

  lemma RunAllNone(s: Schedule, w: World)
    ensures RunAll(s, w, []) == Run(w, Ok(()))
  {
  }

  lemma MkdirLeaves(s: Schedule, w: World, c: Cmd, l: Location)
    requires c.MkdirP?
    ensures At(ExecOk(s, w, c).w.fs, l) == At(w.fs, l)
  {
    hide Do;
    DoQuiet(s, w, c, l);
  }

  lemma CopiesQuiet(s: Schedule, w: World, install: string, at: DateTime, p: Place)
    requires !SamePlace(p, SavedCompose(at)) && !SamePlace(p, SavedState(at))
    ensures Quiet(w, RunAll(s, w, BackupCommands(install, BackupDir(install, at))).w, PlaceOf(install, p))
  {
    hide RunAll, PathOf, PlaceOf, SamePlace, MayChange;
    var l, cs := PlaceOf(install, p), BackupCommands(install, BackupDir(install, at));
    BackupPaths(install, at);
    CopyChanges(install, cs[1].src, SavedCompose(at), p);
    CopyChanges(install, cs[2].src, SavedState(at), p);
    MkdirChangesNothing(cs[0].path, l);
    RunAllQuiet(s, w, cs, l);
  }

  /** Among the derived places, taking a backup changes only its own files. */
  lemma TakeBackupQuiet(env: Env, w: World, install: string, at: DateTime, p: Place)
    requires !SamePlace(p, SavedCompose(at)) && !SamePlace(p, SavedState(at)) && !SamePlace(p, SavedConfig(at))
    ensures Quiet(w, TakeBackup(env, w, install, BackupDir(install, at)).w, PlaceOf(install, p))
  {
    hide RunAll, SaveConfig, BackupCommands, BackupDir, PlaceOf, SamePlace;
    CopiesQuiet(env.remote, w, install, at, p);
    var t := RunAll(env.remote, w, BackupCommands(install, BackupDir(install, at)));
    if t.r.Ok? {
      SaveConfigQuiet(env, t.w, install, at, p);
      QuietTransitive(w, t.w, SaveConfig(env, t.w, install, BackupDir(install, at)).w, PlaceOf(install, p));
    }
  }

  lemma BesideDir(install: string, at: DateTime, p: Place, temp: bool, l: Location)
    requires IsSaved(p) && p.at == at && !(Locate(BackupDir(install, at)) <= l)
    ensures l != Locate(PathOf(install, p, temp))
  {
    PlaceLocation(install, p, temp);
    BackupDirLocation(install, at);
    var q := LocationOf(install, p, temp);
    assert q[..|Locate(install)| + 2] == Locate(install) + ["backups", BackupName(at)];
  }

  /** Taking a backup changes no file outside its own directory, wherever it is. */
  lemma BackupStaysInside(env: Env, w: World, install: string, at: DateTime, l: Location)
    requires !(Locate(BackupDir(install, at)) <= l)
    ensures Quiet(w, TakeBackup(env, w, install, BackupDir(install, at)).w, l)
  {
    hide Do, RunAll, PathOf, Locate, BackupDir, Quiet, Idle;
    var dir := BackupDir(install, at);
    var cs := BackupCommands(install, dir);
    BackupPaths(install, at);
    HelpersNamePlaces(install, at);
    TempPath(install, SavedConfig(at));
    BesideDir(install, at, SavedCompose(at), false, l);
    BesideDir(install, at, SavedState(at), false, l);
    BesideDir(install, at, SavedConfig(at), false, l);
    BesideDir(install, at, SavedConfig(at), true, l);
    RunAllQuiet(env.remote, w, cs, l);
    var t := RunAll(env.remote, w, cs);
    if t.r.Ok? {
      DoIdle(env.remote, t.w, ComposeConfig(install));
      var c := Do(env.remote, t.w, ComposeConfig(install));
      IdleIsQuiet(t.w, c.w, l);
      QuietTransitive(w, t.w, c.w, l);
      if c.r.Ok? && c.r.value.code == 0 {
        var last := [WriteFile(PosixJoin(dir, CONFIG_FILE), c.r.value.stdout)];
        RunAllQuiet(env.remote, c.w, last, l);
        QuietTransitive(w, c.w, RunAll(env.remote, c.w, last).w, l);
      }
    }
  }

  lemma MkdirChangesNothing(path: string, l: Location)
    ensures !MayChange(MkdirP(path), l)
  {
  }

  lemma SaveConfigQuiet(env: Env, w: World, install: string, at: DateTime, p: Place)
    requires !SamePlace(p, SavedConfig(at))
    ensures Quiet(w, SaveConfig(env, w, install, BackupDir(install, at)).w, PlaceOf(install, p))
  {
    hide Do, RunAll, PlaceOf, SamePlace, MayChange, PathOf, BackupDir, Quiet, Idle;
    var l, dir := PlaceOf(install, p), BackupDir(install, at);
    HelpersNamePlaces(install, at);
    DoIdle(env.remote, w, ComposeConfig(install));
    var c := Do(env.remote, w, ComposeConfig(install));
    IdleIsQuiet(w, c.w, l);
    if c.r.Ok? && c.r.value.code == 0 {
      WriteChanges(install, SavedConfig(at), c.r.value.stdout, p);
      var cs := [WriteFile(PosixJoin(dir, CONFIG_FILE), c.r.value.stdout)];
      RunAllQuiet(env.remote, c.w, cs, l);
      QuietTransitive(w, c.w, RunAll(env.remote, c.w, cs).w, l);
    }
  }

  function DirOf(install: string, dir: Option<DateTime>): Option<string> {
    if dir.Some? then Some(BackupDir(install, dir.value)) else None
  }

  // ---------------------------------------------------------------------------
  // Garbage collection stays inside the backups directory
  // ---------------------------------------------------------------------------

  /** The entries the collector decides to delete, if it gets as far as deciding. */
  function GcDoomed(env: Env, w: World, install: string, now: DateTime): seq<Entry> {
    var t := Do(env.remote, w, FindBackups(BackupsPath(install)));
    if t.r.Ok? && t.r.value.code == 0 then
      Doomed(ParseListing(t.r.value.stdout), now.epoch - RETENTION_SECONDS)
    else []
  }

  predicate IsBackupLocation(install: string, l: Location) {
    && |l| == |Locate(install)| + 2 && Locate(install) + ["backups"] <= l
  }

  lemma DoomedListed(dir: string, listing: seq<Listed>, cutoff: int, e: Entry) returns (i: nat)
    requires e in Doomed(Entries(dir, listing), cutoff)
    ensures i < |listing| && e == Entry(listing[i].mtime, PathOfEntry(dir, listing[i].name))
    ensures e.epoch < cutoff
  {
    hide SortNewestFirst;
    var es := Entries(dir, listing);
    DeletedHaveNewerSurvivors(es, cutoff, e);
    i :| 0 <= i < |es| && es[i] == e;
  }

  /** Everything deleted was listed, is an entry of the backups directory, and is past the cutoff. */
  lemma DoomedAreBackups(env: Env, w: World, install: string, now: DateTime, e: Entry) returns (i: nat)
    requires e in GcDoomed(env, w, install, now)
    ensures IsBackupLocation(install, Locate(e.path)) && e.epoch < now.epoch - RETENTION_SECONDS
    ensures var listing := env.remote.outcome(|w.trail|).listing;
            && ListsBackups(w.fs, Locate(BackupsPath(install)), listing)
            && i < |listing| && e == Entry(listing[i].mtime, PathOfEntry(BackupsPath(install), listing[i].name))
  {
    hide Do, Doomed, ParseListing, BackupsPath, Locate, ListsBackups, IsBackupLocation;
    var dir, listing := BackupsPath(install), env.remote.outcome(|w.trail|).listing;
    FoundListing(env, w, dir);
    i := DoomedListed(dir, listing, now.epoch - RETENTION_SECONDS, e);
    ListedAll(w.fs, Locate(dir), listing);
    BackupEntryLocation(install, listing[i]);
  }

  lemma BackupEntryLocation(install: string, e: Listed)
    requires IsListed(e)
    ensures Locate(PathOfEntry(BackupsPath(install), e.name)) == Locate(install) + ["backups"] + [e.name]
    ensures IsBackupLocation(install, Locate(PathOfEntry(BackupsPath(install), e.name)))
  {
    assert e.name[0] == 'p';
    LocateUnder(BackupsPath(install), e.name);
    LocateJoin(install, "backups");
  }

  /** When the collector reads its listing, it reads exactly what the host listed. */
  lemma FoundListing(env: Env, w: World, dir: string)
    requires var t := Do(env.remote, w, FindBackups(dir)); t.r.Ok? && t.r.value.code == 0
    ensures var listing := env.remote.outcome(|w.trail|).listing;
            && ListsBackups(w.fs, Locate(dir), listing)
            && ParseListing(Do(env.remote, w, FindBackups(dir)).r.value.stdout) == Entries(dir, listing)
  {
    hide Locate, PrintListing, ParseListing, ListsBackups, RunScript, Script;
    var listing := env.remote.outcome(|w.trail|).listing;
    FindSuccess(env.remote, w, dir);
    assert IsRemotePath(dir);
    NoNewlineInPath(dir);
    ListedAll(w.fs, Locate(dir), listing);
    ListingRoundTrip(dir, listing);
  }

  lemma NoNewlineInPath(p: string)
    requires IsRemotePath(p)
    ensures '\n' !in p
  {
  }

  lemma ListedAll(fs: Fs, l: Location, es: seq<Listed>)
    requires ListsBackups(fs, l, es)
    ensures forall e :: e in es ==> IsListed(e)
  {
  }

  lemma {:induction false} DeleteAllQuiet(env: Env, w: World, doomed: seq<Entry>, deleted: seq<string>, l: Location)
    requires forall e :: e in doomed ==> !(Locate(e.path) <= l)
    ensures Quiet(w, DeleteAll(env, w, doomed, deleted).w, l)
    decreases |doomed|
  {
    hide Do, Locate;
    if doomed != [] {
      assert doomed[0] in doomed;
      var c := RemoveTree(doomed[0].path);
      DoQuiet(env.remote, w, c, l);
      var t := ExecOk(env.remote, w, c);
      if t.r.Ok? {
        DeleteAllQuiet(env, t.w, doomed[1..], deleted + [doomed[0].path], l);
        QuietTransitive(w, t.w, DeleteAll(env, t.w, doomed[1..], deleted + [doomed[0].path]).w, l);
      }
    }
  }

  lemma GcQuiet(env: Env, w: World, install: string, now: DateTime, l: Location)
    requires forall e :: e in GcDoomed(env, w, install, now) ==> !(Locate(e.path) <= l)
    ensures Quiet(w, GcBackups(env, w, install, now).w, l)
  {
    hide Do, Locate, ParseListing, Doomed, DeleteAll, BackupsPath;
    var c := FindBackups(BackupsPath(install));
    DoIdle(env.remote, w, c);
    var t := Do(env.remote, w, c);
    IdleIsQuiet(w, t.w, l);
    if t.r.Ok? && t.r.value.code == 0 {
      var doomed := GcDoomed(env, w, install, now);
      DeleteAllQuiet(env, t.w, doomed, [], l);
      QuietTransitive(w, t.w, DeleteAll(env, t.w, doomed, []).w, l);
    }
  }

  /** The collector never touches a file outside the backups directory. */
  lemma GcLeavesLive(env: Env, w: World, install: string, now: DateTime, p: Place)
    requires p.Compose? || p.State? || p.Env? || p.Key?
    ensures Quiet(w, GcBackups(env, w, install, now).w, PlaceOf(install, p))
  {
    hide GcDoomed, PlaceOf, Locate, GcBackups;
    forall e | e in GcDoomed(env, w, install, now)
      ensures !(Locate(e.path) <= PlaceOf(install, p))
    {
      var _ := DoomedAreBackups(env, w, install, now, e);
      LiveIsNoBackup(install, p, Locate(e.path));
    }
    GcQuiet(env, w, install, now, PlaceOf(install, p));
  }

  lemma LiveIsNoBackup(install: string, p: Place, l: Location)
    requires (p.Compose? || p.State? || p.Env? || p.Key?) && IsBackupLocation(install, l)
    ensures !(l <= PlaceOf(install, p))
  {
    hide Locate;
    PlaceLocation(install, p, false);
    var n := |Locate(install)|;
    assert l[n] == (Locate(install) + ["backups"])[n] == "backups";
    if p.Key? {
      assert LocationOf(install, p, false)[n] == "data";
    }
  }
}
