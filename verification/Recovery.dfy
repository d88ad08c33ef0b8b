// Once the backup copies succeeded, the old version can be recovered at every step of the rest of
// the update, whichever later commands fail and however.
module Recovery {
  import opened Wrappers
  import opened Text
  import opened Paths
  import opened Listing
  import opened Commands
  import opened Shell
  import opened ShellFacts
  import opened State
  import opened Render
  import opened Retention
  import opened Protocol
  import opened RunFacts
  import opened UpdateFacts
  import opened UpdateTheorems

  // ---------------------------------------------------------------------------
  // Landmarks of a run
  // ---------------------------------------------------------------------------

  /** Where an update that goes ahead starts to change the host, and the updates it installs. */
  function Decided(env: Env, w: World, install: string, opts: UpdateOptions): Option<(World, seq<ImageUpdate>)> {
    if !opts.assumeYes && !opts.isTty then None
    else
      var c := CheckUpdates(env, w, install);
      if c.r.Ok? && AnyUpdate(c.r.value) then Some((c.w, c.r.value)) else None
  }

  /** The world right after both backup copies succeeded, if the run gets there. */
  function Copied(env: Env, w: World, install: string, at: DateTime): Option<World> {
    var t := RunAll(env.remote, w, BackupCommands(install, BackupDir(install, at)));
    if t.r.Ok? then Some(t.w) else None
  }

  /** What the collector decides to delete in the settling of a launched update. */
  function SettleDoomed(env: Env, w: World, install: string, now: DateTime): seq<Entry> {
    var h := HealthCheck(env, w);
    if h.r.Ok? then GcDoomed(env, h.w, install, now) else []
  }

  function DeployDoomed(env: Env, w: World, install: string, opts: UpdateOptions, images: seq<ImageUpdate>, now: DateTime)
    : seq<Entry>
  {
    match Launched(env, w, install, opts, images, now)
    case None => []
    case Some((v, _, _)) => SettleDoomed(env, v, install, now)
  }

  /** What the collector of a settling update reads, if it gets that far. */
  function SettleListing(env: Env, w: World, install: string): Option<seq<Listed>> {
    var h := HealthCheck(env, w);
    if h.r.Err? then None
    else
      var t := Do(env.remote, h.w, FindBackups(BackupsPath(install)));
      if t.r.Ok? && t.r.value.code == 0 then Some(env.remote.outcome(|h.w.trail|).listing) else None
  }

  function DeployListing(env: Env, w: World, install: string, opts: UpdateOptions, images: seq<ImageUpdate>, now: DateTime)
    : Option<seq<Listed>>
  {
    match Launched(env, w, install, opts, images, now)
    case None => None
    case Some((v, _, _)) => SettleListing(env, v, install)
  }

  /** The world in which the deployment starts: after the backup, if one is taken. */
  function Secured(env: Env, w: World, install: string, opts: UpdateOptions): Run<()> {
    if opts.skipBackup then Run(w, Ok(())) else TakeBackup(env, w, install, BackupDir(install, env.wall(|w.trail|)))
  }

  /** What the collector of a replacing update deletes, and what it reads. */
  function ReplaceDoomed(env: Env, w: World, install: string, opts: UpdateOptions, images: seq<ImageUpdate>): seq<Entry> {
    var b := Secured(env, w, install, opts);
    if b.r.Err? then [] else DeployDoomed(env, b.w, install, opts, images, env.wall(|w.trail|))
  }

  function ReplaceListing(env: Env, w: World, install: string, opts: UpdateOptions, images: seq<ImageUpdate>)
    : Option<seq<Listed>>
  {
    var b := Secured(env, w, install, opts);
    if b.r.Err? then None else DeployListing(env, b.w, install, opts, images, env.wall(|w.trail|))
  }

  // ---------------------------------------------------------------------------
  // Which backups the collector picks, read off its listing
  // ---------------------------------------------------------------------------

  /** The backup stands past the first three of the newest-first order and before the cutoff. */
  predicate IsPicked(install: string, listing: seq<Listed>, cutoff: int, at: DateTime) {
    var sorted := SortNewestFirst(Entries(BackupsPath(install), listing));
    exists k :: MIN_RETAINED_BACKUPS <= k < |sorted| && sorted[k].path == BackupDir(install, at) && sorted[k].epoch < cutoff
  }

  /** The collector's choice contains this directory. */
  predicate Collected(doomed: seq<Entry>, install: string, at: DateTime) {
    exists e :: e in doomed && Locate(e.path) == Locate(BackupDir(install, at))
  }

  lemma BackupPathEntry(install: string, at: DateTime)
    ensures BackupDir(install, at) == PathOfEntry(BackupsPath(install), BackupName(at))
  {
    var dir := BackupsPath(install);
    assert dir[|dir| - 1] == "backups"[6] == 's';
    assert TrimSlashes(dir) == dir;
  }

  lemma ListedAtBackup(install: string, e: Listed, at: DateTime)
    requires IsListed(e)
    ensures Locate(PathOfEntry(BackupsPath(install), e.name)) == Locate(BackupDir(install, at)) <==>
            PathOfEntry(BackupsPath(install), e.name) == BackupDir(install, at)
  {
    hide Locate, BackupName, BackupsPath;
    BackupEntryLocation(install, e);
    BackupDirLocation(install, at);
    BackupPathEntry(install, at);
    var a, b := Locate(install) + ["backups"] + [e.name], Locate(install) + ["backups", BackupName(at)];
    assert a[|a| - 1] == e.name && b[|b| - 1] == BackupName(at);
  }

  /** Over a listing, the picked directories are those past the first three and before the cutoff. */
  lemma DoomedPicks(install: string, listing: seq<Listed>, cutoff: int, at: DateTime)
    requires forall e :: e in listing ==> IsListed(e)
    ensures Collected(Doomed(Entries(BackupsPath(install), listing), cutoff), install, at) <==>
            IsPicked(install, listing, cutoff, at)
  {
    hide SortNewestFirst, Locate, BackupsPath, BackupDir, Doomed, PathOfEntry;
    var dir := BackupsPath(install);
    var doomed := Doomed(Entries(dir, listing), cutoff);
    forall e | e in doomed
      ensures Locate(e.path) == Locate(BackupDir(install, at)) <==> e.path == BackupDir(install, at)
    {
      var i := DoomedListed(dir, listing, cutoff, e);
      ListedAtBackup(install, listing[i], at);
    }
    DoomedBySorted(Entries(dir, listing), cutoff, BackupDir(install, at));
  }

  lemma DoomedBySorted(es: seq<Entry>, cutoff: int, path: string)
    ensures var sorted := SortNewestFirst(es);
            (exists e :: e in Doomed(es, cutoff) && e.path == path) <==>
            exists k :: MIN_RETAINED_BACKUPS <= k < |sorted| && sorted[k].path == path && sorted[k].epoch < cutoff
  {
    hide SortNewestFirst, Kept, Doomed;
    var sorted, kept, doomed := SortNewestFirst(es), Kept(es, cutoff), Doomed(es, cutoff);
    RetentionPlan(es, cutoff);
    if e :| e in doomed && e.path == path {
      var j :| 0 <= j < |doomed| && doomed[j] == e;
      assert sorted[|kept| + j] == e;
    }
    if k :| MIN_RETAINED_BACKUPS <= k < |sorted| && sorted[k].path == path && sorted[k].epoch < cutoff {
      assert doomed[k - |kept|] == sorted[k];
    }
  }

  /** What a collector deletes is what the rule picks from the listing it read. */
  lemma ReplacePlan(env: Env, w: World, install: string, opts: UpdateOptions, images: seq<ImageUpdate>)
    ensures var listing, cutoff := ReplaceListing(env, w, install, opts, images), env.wall(|w.trail|).epoch - RETENTION_SECONDS;
            ReplaceDoomed(env, w, install, opts, images) ==
            if listing.Some? then Doomed(Entries(BackupsPath(install), listing.value), cutoff) else []
    ensures var listing := ReplaceListing(env, w, install, opts, images);
            listing.Some? ==> forall e :: e in listing.value ==> IsListed(e)
  {
    hide Secured, Launched, HealthCheck, Do, ParseListing, Doomed, BackupsPath, Locate, IsListed;
    var now, b := env.wall(|w.trail|), Secured(env, w, install, opts);
    var launched := Launched(env, b.w, install, opts, images, now);
    if b.r.Ok? && launched.Some? {
      var h := HealthCheck(env, launched.value.0);
      SettlePlan(env, h.w, install, now);
    }
  }

  lemma SettlePlan(env: Env, w: World, install: string, now: DateTime)
    ensures var t, listing := Do(env.remote, w, FindBackups(BackupsPath(install))), env.remote.outcome(|w.trail|).listing;
            t.r.Ok? && t.r.value.code == 0 ==>
              && GcDoomed(env, w, install, now) == Doomed(Entries(BackupsPath(install), listing), now.epoch - RETENTION_SECONDS)
              && forall e :: e in listing ==> IsListed(e)
  {
    hide Do, ParseListing, Doomed, BackupsPath, Locate, ListsBackups;
    var t := Do(env.remote, w, FindBackups(BackupsPath(install)));
    if t.r.Ok? && t.r.value.code == 0 {
      FoundListing(env, w, BackupsPath(install));
      ListedAll(w.fs, Locate(BackupsPath(install)), env.remote.outcome(|w.trail|).listing);
    }
  }

  /** The collector of this run picks this backup: a fact about the listing it read. */
  predicate Picks(env: Env, w: World, install: string, opts: UpdateOptions, images: seq<ImageUpdate>, at: DateTime) {
    var listing := ReplaceListing(env, w, install, opts, images);
    listing.Some? && IsPicked(install, listing.value, env.wall(|w.trail|).epoch - RETENTION_SECONDS, at)
  }

  lemma PicksIsCollected(env: Env, w: World, install: string, opts: UpdateOptions, images: seq<ImageUpdate>, at: DateTime)
    ensures Collected(ReplaceDoomed(env, w, install, opts, images), install, at) <==> Picks(env, w, install, opts, images, at)
  {
    hide ReplaceDoomed, ReplaceListing, Doomed, BackupsPath, Locate, IsPicked, IsListed, BackupDir;
    ReplacePlan(env, w, install, opts, images);
    var listing := ReplaceListing(env, w, install, opts, images);
    if listing.Some? {
      DoomedPicks(install, listing.value, env.wall(|w.trail|).epoch - RETENTION_SECONDS, at);
    }
  }

  /** A backup listed at or after the cutoff is not picked. */
  lemma RecentNotPicked(install: string, listing: seq<Listed>, cutoff: int, at: DateTime)
    requires forall e :: e in listing && e.name == BackupName(at) ==> e.mtime >= cutoff
    ensures !IsPicked(install, listing, cutoff, at)
  {
    hide SortNewestFirst, BackupsPath, BackupName, BackupDir;
    BackupPathEntry(install, at);
    var es := Entries(BackupsPath(install), listing);
    var sorted := SortNewestFirst(es);
    SortFacts(es);
    forall k | 0 <= k < |sorted| && sorted[k].path == BackupDir(install, at)
      ensures sorted[k].epoch >= cutoff
    {
      assert sorted[k] in multiset(sorted);
      var i :| 0 <= i < |es| && es[i] == sorted[k];
      var path := PathOfEntry(BackupsPath(install), listing[i].name);
      assert path[|BackupsPath(install)| + 1..] == listing[i].name;
      assert BackupDir(install, at)[|BackupsPath(install)| + 1..] == BackupName(at);
      assert listing[i] in listing;
    }
  }

  // ---------------------------------------------------------------------------
  // Removals
  // ---------------------------------------------------------------------------

  /** Every removal of the run is one of these entries. */
  predicate Removes(w: World, v: World, doomed: seq<Entry>) {
    && w.trail <= v.trail
    && forall i :: |w.trail| <= i < |v.trail| && v.trail[i].prim.Remove? ==> v.trail[i].prim.path in PathSet(doomed)
  }

  function PathSet(doomed: seq<Entry>): set<string> {
    set e | e in doomed :: e.path
  }

  lemma RemovesTransitive(u: World, v: World, w: World, doomed: seq<Entry>)
    requires Removes(u, v, doomed) && Removes(v, w, doomed)
    ensures Removes(u, w, doomed)
  {
    hide PathSet;
    forall i | |u.trail| <= i < |w.trail| && w.trail[i].prim.Remove?
      ensures w.trail[i].prim.path in PathSet(doomed)
    {
      if i < |v.trail| {
        assert w.trail[i] == v.trail[i];
      }
    }
  }

  lemma {:induction false} ScriptRemoves(s: Schedule, w: World, cwd: Location, prims: seq<Prim>, doomed: seq<Entry>)
    requires prims != [] && forall p :: p in prims && p.Remove? ==> p.path in PathSet(doomed)
    ensures Removes(w, RunScript(s, w, cwd, prims).w, doomed)
    decreases |prims|
  {
    hide Apply, PathSet;
    var e := Apply(prims[0], cwd, w.fs, w.running, s.outcome(|w.trail|));
    var next := After(w, prims[0], e);
    assert prims[0] in prims && forall p :: p in prims[1..] ==> p in prims;
    assert Removes(w, next, doomed);
    if e.code == 0 && |prims| > 1 {
      ScriptRemoves(s, next, e.cwd, prims[1..], doomed);
      RemovesTransitive(w, next, RunScript(s, next, e.cwd, prims[1..]).w, doomed);
    }
  }

  lemma DoRemoves(s: Schedule, w: World, c: Cmd, doomed: seq<Entry>)
    requires c.RemoveTree? ==> c.path in PathSet(doomed)
    ensures Removes(w, Do(s, w, c).w, doomed)
  {
    hide Accepts, RunScript, PathSet;
    if Accepts(c) {
      assert forall p :: p in Script(c) && p.Remove? ==> c == RemoveTree(p.path);
      ScriptRemoves(s, w, [], Script(c), doomed);
    }
  }

  lemma {:induction false} RunAllRemoves(s: Schedule, w: World, cs: seq<Cmd>, doomed: seq<Entry>)
    requires forall c :: c in cs ==> !c.RemoveTree?
    ensures Removes(w, RunAll(s, w, cs).w, doomed)
    decreases |cs|
  {
    hide Do, PathSet;
    if cs != [] {
      assert cs[0] in cs;
      var t := ExecOk(s, w, cs[0]);
      DoRemoves(s, w, cs[0], doomed);
      if t.r.Ok? {
        RunAllRemoves(s, t.w, cs[1..], doomed);
        RemovesTransitive(w, t.w, RunAll(s, t.w, cs[1..]).w, doomed);
      }
    }
  }

  lemma IdleRemoves(w: World, v: World, doomed: seq<Entry>)
    requires Idle(w, v)
    ensures Removes(w, v, doomed)
  {
    hide PathSet;
  }

  // ---------------------------------------------------------------------------
  // A file until its directory is removed
  // ---------------------------------------------------------------------------

  predicate IsRemoved(trail: seq<Event>, from: nat, n: nat, d: Location) {
    exists j :: from <= j < n && j < |trail| && trail[j].prim.Remove? && Locate(trail[j].prim.path) == d
  }

  /** At the end and at every step, the file is as it was, unless directory `d` was removed before;
      and every removal is of one of the doomed entries. */
  predicate Endures(w: World, v: World, l: Location, d: Location, doomed: seq<Entry>) {
    && Removes(w, v, doomed)
    && (IsRemoved(v.trail, |w.trail|, |v.trail|, d) || At(v.fs, l) == At(w.fs, l))
    && forall i :: |w.trail| <= i < |v.trail| ==> IsRemoved(v.trail, |w.trail|, i + 1, d) || At(v.trail[i].fs, l) == At(w.fs, l)
  }

  lemma RemovedLater(a: seq<Event>, b: seq<Event>, from: nat, start: nat, n: nat, m: nat, d: Location)
    requires a <= b && from <= start && n <= m && IsRemoved(a, start, n, d)
    ensures IsRemoved(b, from, m, d)
  {
    hide Locate;
    var j :| start <= j < n && j < |a| && a[j].prim.Remove? && Locate(a[j].prim.path) == d;
    assert b[j] == a[j];
  }

  lemma QuietEndures(w: World, v: World, l: Location, d: Location, doomed: seq<Entry>)
    requires Quiet(w, v, l) && Removes(w, v, doomed)
    ensures Endures(w, v, l, d, doomed)
  {
    hide IsRemoved, Removes;
  }

  lemma EnduresTransitive(u: World, v: World, w: World, l: Location, d: Location, doomed: seq<Entry>)
    requires Endures(u, v, l, d, doomed) && Endures(v, w, l, d, doomed)
    ensures Endures(u, w, l, d, doomed)
  {
    hide IsRemoved, PathSet;
    RemovesTransitive(u, v, w, doomed);
    forall i | |u.trail| <= i <= |w.trail|
      ensures var fs := if i < |w.trail| then w.trail[i].fs else w.fs;
              IsRemoved(w.trail, |u.trail|, if i < |w.trail| then i + 1 else i, d) || At(fs, l) == At(u.fs, l)
    {
      EnduresStep(u, v, w, l, d, doomed, i);
    }
    assert IsRemoved(w.trail, |u.trail|, |w.trail|, d) || At(w.fs, l) == At(u.fs, l) by {
      EnduresStep(u, v, w, l, d, doomed, |w.trail|);
    }
  }

  lemma EnduresStep(u: World, v: World, w: World, l: Location, d: Location, doomed: seq<Entry>, i: nat)
    requires Endures(u, v, l, d, doomed) && Endures(v, w, l, d, doomed) && |u.trail| <= i <= |w.trail|
    ensures var fs := if i < |w.trail| then w.trail[i].fs else w.fs;
            var n := if i < |w.trail| then i + 1 else i;
            IsRemoved(w.trail, |u.trail|, n, d) || At(fs, l) == At(u.fs, l)
  {
    hide IsRemoved, Removes;
    assert u.trail <= v.trail <= w.trail by {
      TrailsGrow(u, v, w, doomed);
    }
    var n := if i < |w.trail| then i + 1 else i;
    if i < |v.trail| {
      assert w.trail[i] == v.trail[i];
      if IsRemoved(v.trail, |u.trail|, i + 1, d) {
        RemovedLater(v.trail, w.trail, |u.trail|, |u.trail|, i + 1, n, d);
      }
    } else if IsRemoved(v.trail, |u.trail|, |v.trail|, d) {
      RemovedLater(v.trail, w.trail, |u.trail|, |u.trail|, |v.trail|, n, d);
    } else if IsRemoved(w.trail, |v.trail|, n, d) {
      RemovedLater(w.trail, w.trail, |u.trail|, |v.trail|, n, n, d);
    }
  }

  lemma TrailsGrow(u: World, v: World, w: World, doomed: seq<Entry>)
    requires Removes(u, v, doomed) && Removes(v, w, doomed)
    ensures u.trail <= v.trail <= w.trail
  {
  }

  /** If no doomed entry is at the directory, the file is as it was throughout. */
  lemma UnpickedIsQuiet(w: World, v: World, l: Location, d: Location, doomed: seq<Entry>)
    requires Endures(w, v, l, d, doomed) && forall e :: e in doomed ==> Locate(e.path) != d
    ensures Quiet(w, v, l)
  {
    hide Locate;
    assert !IsRemoved(v.trail, |w.trail|, |v.trail|, d);
    forall i | |w.trail| <= i < |v.trail|
      ensures At(v.trail[i].fs, l) == At(w.fs, l)
    {
      assert !IsRemoved(v.trail, |w.trail|, i + 1, d);
    }
  }

  lemma SavedUnderDir(install: string, at: DateTime, l: Location, p: Place)
    requires IsBackupLocation(install, l) && (p == SavedCompose(at) || p == SavedState(at))
    ensures l <= PlaceOf(install, p) ==> l == Locate(BackupDir(install, at))
  {
    PlaceLocation(install, p, false);
    BackupDirLocation(install, at);
    var base := Locate(install);
    var q := LocationOf(install, p, false);
    assert q[..|base| + 2] == base + ["backups", BackupName(at)];
    assert l <= q ==> l == q[..|base| + 2];
  }

  lemma RemoveEndures(s: Schedule, w: World, e: Entry, install: string, at: DateTime, p: Place, doomed: seq<Entry>)
    requires (p == SavedCompose(at) || p == SavedState(at)) && e in doomed && IsBackupLocation(install, Locate(e.path))
    ensures Endures(w, Do(s, w, RemoveTree(e.path)).w, PlaceOf(install, p), Locate(BackupDir(install, at)), doomed)
  {
    hide Locate, PlaceOf, BackupDir, IsBackupLocation, Do, Removes;
    var c, l, d := RemoveTree(e.path), PlaceOf(install, p), Locate(BackupDir(install, at));
    var v := Do(s, w, c).w;
    assert e.path in PathSet(doomed);
    DoRemoves(s, w, c, doomed);
    SavedUnderDir(install, at, Locate(e.path), p);
    if Locate(e.path) == d {
      RemovalStep(s, w, e.path, d);
    } else {
      DoQuiet(s, w, c, l);
      QuietEndures(w, v, l, d, doomed);
    }
  }

  lemma RemovalStep(s: Schedule, w: World, path: string, d: Location)
    requires Locate(path) == d
    ensures var v := Do(s, w, RemoveTree(path)).w;
            (v.trail == w.trail && v.fs == w.fs)
            || (|v.trail| == |w.trail| + 1 && IsRemoved(v.trail, |w.trail|, |w.trail| + 1, d))
  {
    hide Locate, Accepts, Changes;
    var c := RemoveTree(path);
    assert Script(c) == [Remove(path)];
    if Accepts(c) {
      var v := Do(s, w, c).w;
      assert v.trail[|w.trail|].prim == Remove(path);
    }
  }

  lemma {:induction false} DeleteAllEndures(env: Env, w: World, doomed: seq<Entry>, deleted: seq<string>, all: seq<Entry>,
                                           install: string, at: DateTime, p: Place)
    requires p == SavedCompose(at) || p == SavedState(at)
    requires forall e :: e in doomed ==> e in all && IsBackupLocation(install, Locate(e.path))
    ensures Endures(w, DeleteAll(env, w, doomed, deleted).w, PlaceOf(install, p), Locate(BackupDir(install, at)), all)
    decreases |doomed|
  {
    hide Do, Locate, PlaceOf, BackupDir, IsBackupLocation, Endures;
    var l, d := PlaceOf(install, p), Locate(BackupDir(install, at));
    if doomed == [] {
      StillEndures(w, l, d, all);
    } else {
      assert doomed[0] in doomed && forall e :: e in doomed[1..] ==> e in doomed;
      RemoveEndures(env.remote, w, doomed[0], install, at, p, all);
      var t := ExecOk(env.remote, w, RemoveTree(doomed[0].path));
      if t.r.Ok? {
        DeleteAllEndures(env, t.w, doomed[1..], deleted + [doomed[0].path], all, install, at, p);
        EnduresTransitive(w, t.w, DeleteAll(env, t.w, doomed[1..], deleted + [doomed[0].path]).w, l, d, all);
      }
    }
  }

  lemma StillEndures(w: World, l: Location, d: Location, doomed: seq<Entry>)
    ensures Endures(w, w, l, d, doomed)
  {
  }

  lemma GcEndures(env: Env, w: World, install: string, now: DateTime, at: DateTime, p: Place)
    requires p == SavedCompose(at) || p == SavedState(at)
    ensures Endures(w, GcBackups(env, w, install, now).w, PlaceOf(install, p), Locate(BackupDir(install, at)),
                    GcDoomed(env, w, install, now))
  {
    hide Do, ParseListing, Doomed, DeleteAll, BackupsPath, BackupDir, PlaceOf, Locate, IsBackupLocation, Endures, Idle;
    var c, doomed := FindBackups(BackupsPath(install)), GcDoomed(env, w, install, now);
    var t, l, d := Do(env.remote, w, c), PlaceOf(install, p), Locate(BackupDir(install, at));
    DoIdle(env.remote, w, c);
    IdleEndures(w, t.w, l, d, doomed);
    if t.r.Ok? && t.r.value.code == 0 {
      forall e | e in doomed
        ensures IsBackupLocation(install, Locate(e.path))
      {
        var _ := DoomedAreBackups(env, w, install, now, e);
      }
      DeleteAllEndures(env, t.w, doomed, [], doomed, install, at, p);
      EnduresTransitive(w, t.w, DeleteAll(env, t.w, doomed, []).w, l, d, doomed);
    }
  }

  lemma IdleEndures(w: World, v: World, l: Location, d: Location, doomed: seq<Entry>)
    requires Idle(w, v)
    ensures Endures(w, v, l, d, doomed)
  {
    hide Idle, Quiet, Removes, Endures;
    IdleIsQuiet(w, v, l);
    IdleRemoves(w, v, doomed);
    QuietEndures(w, v, l, d, doomed);
  }

  // ---------------------------------------------------------------------------
  // The phases of an update
  // ---------------------------------------------------------------------------

  lemma RestoreQuiet(env: Env, w: World, install: string, at: DateTime, p: Place)
    requires !p.Compose? && !p.State? && !p.Key?
    ensures Quiet(w, RunAll(env.remote, w, RestoreCommands(install, BackupDir(install, at))).w, PlaceOf(install, p))
  {
    hide RunAll, PathOf, PlaceOf, SamePlace, MayChange;
    BackupPaths(install, at);
    var l, cs := PlaceOf(install, p), RestoreCommands(install, BackupDir(install, at));
    assert !SamePlace(p, Compose) && !SamePlace(p, State) by {
      OtherThanLive(p);
    }
    CopyChanges(install, cs[0].src, Compose, p);
    CopyChanges(install, cs[1].src, State, p);
    UpChanges(install, p);
    RunAllQuiet(env.remote, w, cs, l);
  }

  lemma RollbackEndures(env: Env, w: World, install: string, back: DateTime, at: DateTime, p: Place, doomed: seq<Entry>)
    requires p == SavedCompose(at) || p == SavedState(at)
    ensures Endures(w, Rollback(env, w, install, BackupDir(install, back)).w, PlaceOf(install, p),
                    Locate(BackupDir(install, at)), doomed)
  {
    hide RunAll, HealthCheck, PlaceOf, Locate, Endures, Idle, Quiet, BackupDir, Removes;
    var l, d, cs := PlaceOf(install, p), Locate(BackupDir(install, at)), RestoreCommands(install, BackupDir(install, back));
    var t := RunAll(env.remote, w, cs);
    RestoreQuiet(env, w, install, back, p);
    RunAllRemoves(env.remote, w, cs, doomed);
    QuietEndures(w, t.w, l, d, doomed);
    HealthCheckIdle(env, t.w);
    IdleEndures(t.w, HealthCheck(env, t.w).w, l, d, doomed);
    EnduresTransitive(w, t.w, HealthCheck(env, t.w).w, l, d, doomed);
  }

  lemma SettleEndures(env: Env, w: World, install: string, now: DateTime, dir: Option<DateTime>, newState: RelayState,
                      at: DateTime, p: Place)
    requires p == SavedCompose(at) || p == SavedState(at)
    ensures Endures(w, Settle(env, w, install, now, DirOf(install, dir), newState).w, PlaceOf(install, p),
                    Locate(BackupDir(install, at)), SettleDoomed(env, w, install, now))
  {
    hide HealthCheck, GcBackups, Rollback, PlaceOf, BackupDir, GcDoomed, Locate, Endures, Idle;
    var l, d, h := PlaceOf(install, p), Locate(BackupDir(install, at)), HealthCheck(env, w);
    var doomed := SettleDoomed(env, w, install, now);
    HealthCheckIdle(env, w);
    IdleEndures(w, h.w, l, d, doomed);
    if h.r.Ok? {
      GcEndures(env, h.w, install, now, at, p);
      EnduresTransitive(w, h.w, GcBackups(env, h.w, install, now).w, l, d, doomed);
    } else if dir.Some? {
      RollbackEndures(env, h.w, install, dir.value, at, p, doomed);
      EnduresTransitive(w, h.w, Rollback(env, h.w, install, BackupDir(install, dir.value)).w, l, d, doomed);
    }
  }

  lemma DeployCommandsEndure(s: Schedule, w: World, install: string, compose: Bytes, state: Bytes, at: DateTime, p: Place,
                             doomed: seq<Entry>)
    requires p == SavedCompose(at) || p == SavedState(at)
    ensures Endures(w, RunAll(s, w, DeployCommands(install, compose, state)).w, PlaceOf(install, p),
                    Locate(BackupDir(install, at)), doomed)
  {
    hide RunAll, PlaceOf, Locate, Endures, Quiet, BackupDir, Removes;
    var cs := DeployCommands(install, compose, state);
    DeployCommandsQuiet(s, w, install, compose, state, p);
    RunAllRemoves(s, w, cs, doomed);
    QuietEndures(w, RunAll(s, w, cs).w, PlaceOf(install, p), Locate(BackupDir(install, at)), doomed);
  }

  lemma DeployEndures(env: Env, w: World, install: string, opts: UpdateOptions, images: seq<ImageUpdate>, now: DateTime,
                      dir: Option<DateTime>, at: DateTime, p: Place)
    requires p == SavedCompose(at) || p == SavedState(at)
    ensures Endures(w, Deploy(env, w, install, opts, images, now, DirOf(install, dir)).w, PlaceOf(install, p),
                    Locate(BackupDir(install, at)), DeployDoomed(env, w, install, opts, images, now))
  {
    hide LoadState, RunAll, RenderPins, Settle, DeployCommands, PlaceOf, SettleDoomed, Locate, BackupDir, Endures, Idle;
    var l, d, s := PlaceOf(install, p), Locate(BackupDir(install, at)), LoadState(env, w, install);
    var doomed := DeployDoomed(env, w, install, opts, images, now);
    LoadStateIdle(env, w, install);
    IdleEndures(w, s.w, l, d, doomed);
    if s.r.Ok? {
      var newState := ApplyUpdate(s.r.value, PinsOf(images, now), now);
      var compose := RenderPins(opts.template, PinsOf(images, now));
      if compose.Ok? {
        var t := RunAll(env.remote, s.w, DeployCommands(install, compose.value, env.toml.encode(newState)));
        DeployCommandsEndure(env.remote, s.w, install, compose.value, env.toml.encode(newState), at, p, doomed);
        EnduresTransitive(w, s.w, t.w, l, d, doomed);
        if t.r.Ok? {
          SettleEndures(env, t.w, install, now, dir, newState, at, p);
          EnduresTransitive(w, t.w, Settle(env, t.w, install, now, DirOf(install, dir), newState).w, l, d, doomed);
        }
      }
    }
  }

  lemma SaveConfigEndures(env: Env, w: World, install: string, back: DateTime, at: DateTime, p: Place, doomed: seq<Entry>)
    requires p == SavedCompose(at) || p == SavedState(at)
    ensures Endures(w, SaveConfig(env, w, install, BackupDir(install, back)).w, PlaceOf(install, p),
                    Locate(BackupDir(install, at)), doomed)
  {
    hide Do, RunAll, PlaceOf, Locate, Endures, Quiet, BackupDir, Removes, Idle;
    SaveConfigQuiet(env, w, install, back, p);
    var c := Do(env.remote, w, ComposeConfig(install));
    DoRemoves(env.remote, w, ComposeConfig(install), doomed);
    if c.r.Ok? && c.r.value.code == 0 {
      var cs := [WriteFile(PosixJoin(BackupDir(install, back), CONFIG_FILE), c.r.value.stdout)];
      RunAllRemoves(env.remote, c.w, cs, doomed);
      RemovesTransitive(w, c.w, RunAll(env.remote, c.w, cs).w, doomed);
    }
    QuietEndures(w, SaveConfig(env, w, install, BackupDir(install, back)).w, PlaceOf(install, p),
                 Locate(BackupDir(install, at)), doomed);
  }

  // ---------------------------------------------------------------------------
  // The backup of the run itself
  // ---------------------------------------------------------------------------

  /** From the copies to the end, at every step, a saved file is as it was until its directory is removed. */
  lemma SavedEndures(env: Env, w: World, install: string, opts: UpdateOptions, images: seq<ImageUpdate>, p: Place)
    requires !opts.skipBackup
    requires var at := env.wall(|w.trail|); p == SavedCompose(at) || p == SavedState(at)
    requires Copied(env, w, install, env.wall(|w.trail|)).Some?
    ensures Endures(Copied(env, w, install, env.wall(|w.trail|)).value, Replace(env, w, install, opts, images).w,
                    PlaceOf(install, p), Locate(BackupDir(install, env.wall(|w.trail|))),
                    ReplaceDoomed(env, w, install, opts, images))
  {
    hide RunAll, SaveConfig, Deploy, DeployDoomed, BackupDir, PlaceOf, Locate, BackupCommands, Endures;
    var at := env.wall(|w.trail|);
    var dir, doomed := BackupDir(install, at), ReplaceDoomed(env, w, install, opts, images);
    var l, d := PlaceOf(install, p), Locate(dir);
    var v := RunAll(env.remote, w, BackupCommands(install, dir)).w;
    SaveConfigEndures(env, v, install, at, at, p, doomed);
    var b := SaveConfig(env, v, install, dir);
    if b.r.Ok? {
      DeployEndures(env, b.w, install, opts, images, at, Some(at), at, p);
      EnduresTransitive(v, b.w, Deploy(env, b.w, install, opts, images, at, Some(dir)).w, l, d, doomed);
    }
  }

  /** The backup of instant `at` holds these texts. */
  predicate Holds(fs: Fs, install: string, at: DateTime, compose: Option<Bytes>, state: Option<Bytes>) {
    At(fs, PlaceOf(install, SavedCompose(at))) == compose && At(fs, PlaceOf(install, SavedState(at))) == state
  }

  /** Recoverability: from the moment both copies succeeded, at every later step of the run, whatever
      fails and whatever the collector picks, the backup holds the exact files the update found until
      its directory is removed, and only the collector removes anything. */
  lemma BackupUntilCollected(env: Env, w: World, install: string, opts: UpdateOptions, i: nat)
    requires !opts.skipBackup && Decided(env, w, install, opts).Some?
    requires var v := Decided(env, w, install, opts).value.0; Copied(env, v, install, env.wall(|v.trail|)).Some?
    ensures var (v, images) := Decided(env, w, install, opts).value;
            var at, u := env.wall(|v.trail|), Update(env, w, install, opts).w;
            var start, d := Copied(env, v, install, at).value, Locate(BackupDir(install, at));
            var compose, state := At(w.fs, PlaceOf(install, Compose)), At(w.fs, PlaceOf(install, State));
            && compose.Some? && state.Some? && Removes(start, u, ReplaceDoomed(env, v, install, opts, images))
            && Holds(start.fs, install, at, compose, state)
            && (IsRemoved(u.trail, |start.trail|, |u.trail|, d) || Holds(u.fs, install, at, compose, state))
            && (|start.trail| <= i < |u.trail| ==>
                  IsRemoved(u.trail, |start.trail|, i + 1, d) || Holds(u.trail[i].fs, install, at, compose, state))
  {
    hide CheckUpdates, LoadState, Replace, BackupDir, PlaceOf, RunAll, ReplaceDoomed, BackupCommands, Locate, IsRemoved, Removes;
    CheckUpdatesIdle(env, w, install);
    var (v, images) := Decided(env, w, install, opts).value;
    var at := env.wall(|v.trail|);
    BackupHolds(env.remote, v, install, at);
    SavedEndures(env, v, install, opts, images, SavedCompose(at));
    SavedEndures(env, v, install, opts, images, SavedState(at));
  }

  /** What the run's own collector does not pick survives to the end. */
  lemma BackupSurvives(env: Env, w: World, install: string, opts: UpdateOptions, i: nat)
    requires !opts.skipBackup && Decided(env, w, install, opts).Some?
    requires var v := Decided(env, w, install, opts).value.0; Copied(env, v, install, env.wall(|v.trail|)).Some?
    requires var (v, images) := Decided(env, w, install, opts).value;
             !Picks(env, v, install, opts, images, env.wall(|v.trail|))
    ensures var v := Decided(env, w, install, opts).value.0;
            var at, u := env.wall(|v.trail|), Update(env, w, install, opts).w;
            var compose, state := At(w.fs, PlaceOf(install, Compose)), At(w.fs, PlaceOf(install, State));
            && compose.Some? && state.Some? && Holds(u.fs, install, at, compose, state)
            && (|Copied(env, v, install, at).value.trail| <= i < |u.trail| ==> Holds(u.trail[i].fs, install, at, compose, state))
  {
    hide CheckUpdates, LoadState, Replace, BackupDir, PlaceOf, RunAll, ReplaceDoomed, BackupCommands, Locate, Endures, Picks;
    CheckUpdatesIdle(env, w, install);
    var (v, images) := Decided(env, w, install, opts).value;
    var at, doomed := env.wall(|v.trail|), ReplaceDoomed(env, v, install, opts, images);
    var start, u := Copied(env, v, install, at).value, Replace(env, v, install, opts, images).w;
    var d := Locate(BackupDir(install, at));
    BackupHolds(env.remote, v, install, at);
    PicksIsCollected(env, v, install, opts, images, at);
    SavedEndures(env, v, install, opts, images, SavedCompose(at));
    SavedEndures(env, v, install, opts, images, SavedState(at));
    UnpickedIsQuiet(start, u, PlaceOf(install, SavedCompose(at)), d, doomed);
    UnpickedIsQuiet(start, u, PlaceOf(install, SavedState(at)), d, doomed);
  }

  /** In particular a backup that the collector's listing shows at or after the cutoff survives. */
  lemma RecentBackupSurvives(env: Env, w: World, install: string, opts: UpdateOptions, i: nat)
    requires !opts.skipBackup && Decided(env, w, install, opts).Some?
    requires var v := Decided(env, w, install, opts).value.0; Copied(env, v, install, env.wall(|v.trail|)).Some?
    requires var (v, images) := Decided(env, w, install, opts).value;
             var listing, now := ReplaceListing(env, v, install, opts, images), env.wall(|v.trail|);
             listing.Some? ==>
               forall e :: e in listing.value && e.name == BackupName(now) ==> e.mtime >= now.epoch - RETENTION_SECONDS
    ensures var v := Decided(env, w, install, opts).value.0;
            var at, u := env.wall(|v.trail|), Update(env, w, install, opts).w;
            var compose, state := At(w.fs, PlaceOf(install, Compose)), At(w.fs, PlaceOf(install, State));
            && compose.Some? && state.Some? && Holds(u.fs, install, at, compose, state)
            && (|Copied(env, v, install, at).value.trail| <= i < |u.trail| ==> Holds(u.trail[i].fs, install, at, compose, state))
  {
    hide CheckUpdates, Update, Copied, Holds, IsPicked, ReplaceListing, BackupName, PlaceOf;
    var (v, images) := Decided(env, w, install, opts).value;
    var listing, now := ReplaceListing(env, v, install, opts, images), env.wall(|v.trail|);
    if listing.Some? {
      RecentNotPicked(install, listing.value, now.epoch - RETENTION_SECONDS, now);
    }
    BackupSurvives(env, w, install, opts, i);
  }

  // ---------------------------------------------------------------------------
  // Earlier backups
  // ---------------------------------------------------------------------------

  lemma QuietSelf(w: World, l: Location)
    ensures Quiet(w, w, l)
  {
  }

  lemma TakeBackupEndures(env: Env, w: World, install: string, back: DateTime, at: DateTime, p: Place, doomed: seq<Entry>)
    requires (p == SavedCompose(at) || p == SavedState(at)) && !SameSecond(at, back)
    ensures Endures(w, TakeBackup(env, w, install, BackupDir(install, back)).w, PlaceOf(install, p),
                    Locate(BackupDir(install, at)), doomed)
  {
    hide RunAll, SaveConfig, PlaceOf, Locate, Endures, Quiet, BackupDir, Removes, SameSecond;
    var l, d, cs := PlaceOf(install, p), Locate(BackupDir(install, at)), BackupCommands(install, BackupDir(install, back));
    var t := RunAll(env.remote, w, cs);
    CopiesQuiet(env.remote, w, install, back, p);
    RunAllRemoves(env.remote, w, cs, doomed);
    QuietEndures(w, t.w, l, d, doomed);
    if t.r.Ok? {
      SaveConfigEndures(env, t.w, install, back, at, p, doomed);
      EnduresTransitive(w, t.w, SaveConfig(env, t.w, install, BackupDir(install, back)).w, l, d, doomed);
    }
  }

  lemma ReplaceEndures(env: Env, w: World, install: string, opts: UpdateOptions, images: seq<ImageUpdate>, at: DateTime, p: Place)
    requires (p == SavedCompose(at) || p == SavedState(at)) && !SameSecond(at, env.wall(|w.trail|))
    ensures Endures(w, Replace(env, w, install, opts, images).w, PlaceOf(install, p), Locate(BackupDir(install, at)),
                    ReplaceDoomed(env, w, install, opts, images))
  {
    hide TakeBackup, Deploy, DeployDoomed, BackupDir, PlaceOf, Locate, SameSecond, Endures;
    var now, doomed := env.wall(|w.trail|), ReplaceDoomed(env, w, install, opts, images);
    var l, d := PlaceOf(install, p), Locate(BackupDir(install, at));
    if opts.skipBackup {
      DeployEndures(env, w, install, opts, images, now, None, at, p);
    } else {
      var b := TakeBackup(env, w, install, BackupDir(install, now));
      TakeBackupEndures(env, w, install, now, at, p, doomed);
      if b.r.Ok? {
        DeployEndures(env, b.w, install, opts, images, now, Some(now), at, p);
        var v := Deploy(env, b.w, install, opts, images, now, Some(BackupDir(install, now))).w;
        EnduresTransitive(w, b.w, v, l, d, doomed);
      }
    }
  }

  /** What an update deletes, if it decides to change anything. */
  function UpdateDoomed(env: Env, w: World, install: string, opts: UpdateOptions): seq<Entry> {
    match Decided(env, w, install, opts)
    case None => []
    case Some((v, images)) => ReplaceDoomed(env, v, install, opts, images)
  }

  /** A later update, taken in another second, leaves the saved files of an earlier backup as they are
      at every step and however it ends, until its collector removes that directory. */
  lemma EarlierBackupUntilCollected(env: Env, w: World, install: string, opts: UpdateOptions, at: DateTime, p: Place)
    requires p == SavedCompose(at) || p == SavedState(at)
    requires var d := Decided(env, w, install, opts); d.Some? ==> !SameSecond(at, env.wall(|d.value.0.trail|))
    ensures Endures(w, Update(env, w, install, opts).w, PlaceOf(install, p), Locate(BackupDir(install, at)),
                    UpdateDoomed(env, w, install, opts))
  {
    hide CheckUpdates, LoadState, Replace, BackupDir, PlaceOf, ReplaceDoomed, SameSecond, Locate, Endures, Idle;
    var l, d, c := PlaceOf(install, p), Locate(BackupDir(install, at)), CheckUpdates(env, w, install);
    var doomed := UpdateDoomed(env, w, install, opts);
    CheckUpdatesIdle(env, w, install);
    IdleEndures(w, c.w, l, d, doomed);
    StillEndures(w, l, d, doomed);
    if Decided(env, w, install, opts).Some? {
      ReplaceEndures(env, c.w, install, opts, c.r.value, at, p);
      EnduresTransitive(w, c.w, Replace(env, c.w, install, opts, c.r.value).w, l, d, doomed);
    } else {
      LoadStateIdle(env, c.w, install);
      IdleEndures(c.w, LoadState(env, c.w, install).w, l, d, doomed);
      EnduresTransitive(w, c.w, LoadState(env, c.w, install).w, l, d, doomed);
    }
  }

  /** And if the listing its collector reads does not have it picked, to the end. */
  lemma EarlierBackupStays(env: Env, w: World, install: string, opts: UpdateOptions, at: DateTime, p: Place)
    requires p == SavedCompose(at) || p == SavedState(at)
    requires Decided(env, w, install, opts).Some? ==>
               var (v, images) := Decided(env, w, install, opts).value;
               !SameSecond(at, env.wall(|v.trail|)) && !Picks(env, v, install, opts, images, at)
    ensures Quiet(w, Update(env, w, install, opts).w, PlaceOf(install, p))
  {
    hide Update, BackupDir, PlaceOf, ReplaceDoomed, SameSecond, Locate, Endures, Picks, Decided, Quiet;
    EarlierBackupUntilCollected(env, w, install, opts, at, p);
    var d := Decided(env, w, install, opts);
    if d.Some? {
      PicksIsCollected(env, d.value.0, install, opts, d.value.1, at);
    }
    UnpickedIsQuiet(w, Update(env, w, install, opts).w, PlaceOf(install, p), Locate(BackupDir(install, at)),
                    UpdateDoomed(env, w, install, opts));
  }
}
