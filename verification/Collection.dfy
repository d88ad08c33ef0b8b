// What the garbage collector does to the host: it deletes exactly the directories the retention
// rule picks, and collecting again at once finds nothing more to delete.
module Collection {
  import opened Wrappers
  import opened Sequences
  import opened Paths
  import opened Listing
  import opened Commands
  import opened Shell
  import opened ShellFacts
  import opened Retention
  import opened Protocol
  import opened UpdateFacts

  function EntryPaths(es: seq<Entry>): seq<string> {
    if es == [] then [] else [es[0].path] + EntryPaths(es[1..])
  }

  /** The location is one of the doomed directories or below one. */
  predicate IsDoomed(doomed: seq<Entry>, l: Location) {
    exists e :: e in doomed && Locate(e.path) <= l
  }

  /** The tree after is the tree before without the doomed directories: nothing more, nothing less. */
  ghost predicate IsPruned(before: Fs, after: Fs, doomed: seq<Entry>) {
    && (forall l :: At(after, l) == if IsDoomed(doomed, l) then None else At(before, l))
    && (forall d :: d in after.dirs <==> d in before.dirs && !IsDoomed(doomed, d))
  }

  lemma RemovePrunes(s: Schedule, w: World, e: Entry)
    requires Succeeds(s, w, RemoveTree(e.path))
    ensures ExecOk(s, w, RemoveTree(e.path)).w.fs == Prune(w.fs, Locate(e.path))
  {
    hide Locate, Accepts, Do, ExecOk, Succeeds;
    SingleSuccess(s, w, RemoveTree(e.path));
  }

  lemma PrunedStep(before: Fs, e: Entry, rest: seq<Entry>, after: Fs)
    requires IsPruned(Prune(before, Locate(e.path)), after, rest)
    ensures IsPruned(before, after, [e] + rest)
  {
    hide Locate;
    forall l
      ensures IsDoomed([e] + rest, l) <==> Locate(e.path) <= l || IsDoomed(rest, l)
    {
      assert forall x :: x in [e] + rest <==> x == e || x in rest;
    }
  }

  lemma {:induction false} DeleteAllExact(env: Env, w: World, doomed: seq<Entry>, deleted: seq<string>)
    requires DeleteAll(env, w, doomed, deleted).r.Ok?
    ensures DeleteAll(env, w, doomed, deleted).r.value == deleted + EntryPaths(doomed)
    ensures IsPruned(w.fs, DeleteAll(env, w, doomed, deleted).w.fs, doomed)
    decreases |doomed|
  {
    hide ExecOk, IsPruned, Locate, Prune, Succeeds;
    if doomed == [] {
      NothingPruned(w.fs);
    } else {
      var e := doomed[0];
      var t := ExecOk(env.remote, w, RemoveTree(e.path));
      SucceedsIsOk(env.remote, w, RemoveTree(e.path));
      RemovePrunes(env.remote, w, e);
      DeleteAllExact(env, t.w, doomed[1..], deleted + [e.path]);
      PrunedStep(w.fs, e, doomed[1..], DeleteAll(env, w, doomed, deleted).w.fs);
      assert doomed == [e] + doomed[1..];
    }
  }

  lemma NothingPruned(fs: Fs)
    ensures IsPruned(fs, fs, [])
  {
  }

  /** The collector got its listing. */
  predicate IsListingRead(env: Env, w: World, install: string) {
    var t := Do(env.remote, w, FindBackups(BackupsPath(install)));
    t.r.Ok? && t.r.value.code == 0
  }

  /** A collection that succeeds reports exactly the doomed directories, newest first, and removed
      exactly those from the host; without a listing it deletes nothing. */
  lemma GcExact(env: Env, w: World, install: string, now: DateTime)
    requires GcBackups(env, w, install, now).r.Ok?
    ensures GcBackups(env, w, install, now).r.value == EntryPaths(GcDoomed(env, w, install, now))
    ensures IsPruned(w.fs, GcBackups(env, w, install, now).w.fs, GcDoomed(env, w, install, now))
    ensures IsListingRead(env, w, install) ==>
              GcDoomed(env, w, install, now) ==
              Doomed(Entries(BackupsPath(install), env.remote.outcome(|w.trail|).listing), now.epoch - RETENTION_SECONDS)
  {
    hide Do, ParseListing, Doomed, DeleteAll, BackupsPath, IsPruned, Locate, ListsBackups;
    var c := FindBackups(BackupsPath(install));
    DoIdle(env.remote, w, c);
    var t := Do(env.remote, w, c);
    NothingPruned(w.fs);
    if IsListingRead(env, w, install) {
      FoundListing(env, w, BackupsPath(install));
      DeleteAllExact(env, t.w, GcDoomed(env, w, install, now), []);
      assert [] + EntryPaths(GcDoomed(env, w, install, now)) == EntryPaths(GcDoomed(env, w, install, now));
    }
  }

  // ---------------------------------------------------------------------------
  // Collecting again
  // ---------------------------------------------------------------------------

  lemma EntriesDiffer(dir: string, listing: seq<Listed>)
    requires forall i, j :: 0 <= i < j < |listing| ==> listing[i].name != listing[j].name
    ensures NoRepeats(Entries(dir, listing))
  {
    var es := Entries(dir, listing);
    forall i, j | 0 <= i < j < |es|
      ensures es[i] != es[j]
    {
      assert PathOfEntry(dir, listing[i].name)[|dir| + 1..] == listing[i].name;
      assert PathOfEntry(dir, listing[j].name)[|dir| + 1..] == listing[j].name;
    }
  }

  /** Without repetitions, an entry is kept exactly when it is not doomed. */
  lemma KeptOrDoomed(es: seq<Entry>, cutoff: int)
    requires NoRepeats(es)
    ensures NoRepeats(Kept(es, cutoff))
    ensures forall e :: e in Kept(es, cutoff) <==> e in es && e !in Doomed(es, cutoff)
  {
    hide SortNewestFirst, Kept, Doomed;
    RetentionPlan(es, cutoff);
    var sorted, kept, doomed := SortNewestFirst(es), Kept(es, cutoff), Doomed(es, cutoff);
    forall x
      ensures multiset(sorted)[x] == if x in es then 1 else 0
    {
      OnceEach(es, x);
    }
    NoRepeatsIsMultiset(sorted);
    forall e
      ensures e in kept <==> e in es && e !in doomed
    {
      assert e in sorted <==> e in multiset(sorted);
      assert e in sorted <==> e in kept || e in doomed;
      assert multiset(sorted)[e] == multiset(kept)[e] + multiset(doomed)[e];
      assert e in kept <==> multiset(kept)[e] > 0;
      assert e in doomed <==> multiset(doomed)[e] > 0;
    }
    forall i, j | 0 <= i < j < |kept|
      ensures kept[i] != kept[j]
    {
      assert sorted[i] == kept[i] && sorted[j] == kept[j];
    }
  }

  /** Two listings give the directories they share the same time. */
  predicate SameTimes(a: seq<Listed>, b: seq<Listed>) {
    forall e, f :: e in a && f in b && e.name == f.name ==> e.mtime == f.mtime
  }

  lemma ListedIff(fs: Fs, dir: Location, es: seq<Listed>, name: string)
    requires ListsBackups(fs, dir, es) && "pre-update-" <= name
    ensures dir + [name] in fs.dirs <==> exists e :: e in es && e.name == name
  {
    var d := dir + [name];
    assert d[|dir|] == name;
  }

  lemma PathLocation(dir: string, e: Listed)
    requires IsListed(e)
    ensures Locate(PathOfEntry(dir, e.name)) == Locate(dir) + [e.name]
  {
    assert e.name[0] == 'p';
    LocateUnder(dir, e.name);
  }

  lemma EntryOf(dir: string, listing: seq<Listed>, e: Listed) returns (i: nat)
    requires e in listing
    ensures i < |listing| && listing[i] == e && Entries(dir, listing)[i] == Entry(e.mtime, PathOfEntry(dir, e.name))
  {
    i :| i < |listing| && listing[i] == e;
  }

  /** A listed name is doomed exactly when its location is. */
  lemma DoomedName(dir: string, listing: seq<Listed>, cutoff: int, e: Listed)
    requires e in listing && forall f :: f in listing ==> IsListed(f)
    requires forall i, j :: 0 <= i < j < |listing| ==> listing[i].name != listing[j].name
    ensures Entry(e.mtime, PathOfEntry(dir, e.name)) in Doomed(Entries(dir, listing), cutoff) <==>
            IsDoomed(Doomed(Entries(dir, listing), cutoff), Locate(dir) + [e.name])
  {
    hide Doomed, Locate;
    var doomed := Doomed(Entries(dir, listing), cutoff);
    var l := Locate(dir) + [e.name];
    PathLocation(dir, e);
    if IsDoomed(doomed, l) {
      var d :| d in doomed && Locate(d.path) <= l;
      var i := DoomedListed(dir, listing, cutoff, d);
      PathLocation(dir, listing[i]);
      assert (Locate(dir) + [listing[i].name])[|Locate(dir)|] == l[|Locate(dir)|];
      assert listing[i].name == e.name;
      var k := EntryOf(dir, listing, e);
      assert i == k;
    }
  }

  /** Both listings, and the tree the second one shows. */
  ghost predicate ListedTwice(dir: string, first: seq<Listed>, second: seq<Listed>, before: Fs, after: Fs, doomed: seq<Entry>) {
    && ListsBackups(before, Locate(dir), first) && ListsBackups(after, Locate(dir), second)
    && SameTimes(first, second) && IsPruned(before, after, doomed)
  }

  lemma SecondIsKept(dir: string, first: seq<Listed>, second: seq<Listed>, before: Fs, after: Fs, cutoff: int, j: nat)
    requires ListedTwice(dir, first, second, before, after, Doomed(Entries(dir, first), cutoff)) && j < |second|
    ensures Entries(dir, second)[j] in Entries(dir, first)
    ensures Entries(dir, second)[j] !in Doomed(Entries(dir, first), cutoff)
  {
    hide Doomed, Locate, ListsBackups;
    var f, l := second[j], Locate(dir);
    ListedAll(before, l, first);
    ListedAll(after, l, second);
    NamesDiffer(before, l, first);
    assert f in second && IsListed(f);
    ListedIff(after, l, second, f.name);
    assert l + [f.name] in after.dirs;
    ListedIff(before, l, first, f.name);
    var e :| e in first && e.name == f.name;
    DoomedName(dir, first, cutoff, e);
    var i := EntryOf(dir, first, e);
    assert Entries(dir, first)[i] == Entries(dir, second)[j];
  }

  lemma KeptIsSecond(dir: string, first: seq<Listed>, second: seq<Listed>, before: Fs, after: Fs, cutoff: int, i: nat)
    requires ListedTwice(dir, first, second, before, after, Doomed(Entries(dir, first), cutoff)) && i < |first|
    requires Entries(dir, first)[i] !in Doomed(Entries(dir, first), cutoff)
    ensures Entries(dir, first)[i] in Entries(dir, second)
  {
    hide Doomed, Locate, ListsBackups;
    var e, l := first[i], Locate(dir);
    ListedAll(before, l, first);
    NamesDiffer(before, l, first);
    assert e in first && IsListed(e);
    DoomedName(dir, first, cutoff, e);
    ListedIff(before, l, first, e.name);
    ListedIff(after, l, second, e.name);
    var f :| f in second && f.name == e.name;
    var j := EntryOf(dir, second, f);
    assert Entries(dir, second)[j] == Entries(dir, first)[i];
  }

  /** What the second listing shows is what the first plan kept. */
  lemma SecondListing(dir: string, first: seq<Listed>, second: seq<Listed>, before: Fs, after: Fs, cutoff: int)
    requires ListedTwice(dir, first, second, before, after, Doomed(Entries(dir, first), cutoff))
    ensures multiset(Entries(dir, second)) == multiset(Kept(Entries(dir, first), cutoff))
  {
    hide Doomed, Kept, Locate, ListsBackups;
    var a, b := Entries(dir, first), Entries(dir, second);
    var doomed := Doomed(a, cutoff);
    NamesDiffer(before, Locate(dir), first);
    NamesDiffer(after, Locate(dir), second);
    hide *;
    EntriesDiffer(dir, first);
    EntriesDiffer(dir, second);
    KeptOrDoomed(a, cutoff);
    forall x
      ensures x in b <==> x in a && x !in doomed
    {
      if x in b {
        var j :| 0 <= j < |b| && b[j] == x;
        SecondIsKept(dir, first, second, before, after, cutoff, j);
      }
      if x in a && x !in doomed {
        var i :| 0 <= i < |a| && a[i] == x;
        KeptIsSecond(dir, first, second, before, after, cutoff, i);
      }
    }
    SameElements(b, Kept(a, cutoff));
  }

  lemma NamesDiffer(fs: Fs, dir: Location, es: seq<Listed>)
    requires ListsBackups(fs, dir, es)
    ensures forall i, j :: 0 <= i < j < |es| ==> es[i].name != es[j].name
  {
  }

  lemma SecondDoomed(env: Env, w: World, v: World, install: string, now: DateTime)
    requires IsListingRead(env, w, install) && IsPruned(w.fs, v.fs, GcDoomed(env, w, install, now))
    requires SameTimes(env.remote.outcome(|w.trail|).listing, env.remote.outcome(|v.trail|).listing)
    ensures GcDoomed(env, v, install, now) == []
  {
    hide Do, Doomed, Kept, Locate, ListsBackups, IsPruned, SameTimes, ParseListing, BackupsPath;
    var dir, cutoff := BackupsPath(install), now.epoch - RETENTION_SECONDS;
    var first, second := env.remote.outcome(|w.trail|).listing, env.remote.outcome(|v.trail|).listing;
    FoundListing(env, w, dir);
    if IsListingRead(env, v, install) {
      FoundListing(env, v, dir);
      SecondListing(dir, first, second, w.fs, v.fs, cutoff);
      SecondRunDeletesNothing(Entries(dir, first), cutoff, Entries(dir, second));
    }
  }

  /** Collecting again at the same time, right after a collection that succeeded, touches nothing,
      as long as the directories left keep their times. A collection that could not read its listing
      touched nothing itself. */
  lemma CollectTwice(env: Env, w: World, install: string, now: DateTime)
    requires GcBackups(env, w, install, now).r.Ok?
    requires var v := GcBackups(env, w, install, now).w;
             IsListingRead(env, w, install) ==>
               SameTimes(env.remote.outcome(|w.trail|).listing, env.remote.outcome(|v.trail|).listing)
    ensures var t := GcBackups(env, w, install, now);
            var again := GcBackups(env, t.w, install, now);
            if IsListingRead(env, w, install) then Idle(t.w, again.w) && (again.r.Ok? ==> again.r.value == [])
            else Idle(w, t.w) && t.r.value == []
  {
    hide *;
    if IsListingRead(env, w, install) {
      GcExact(env, w, install, now);
      SecondDoomed(env, w, GcBackups(env, w, install, now).w, install, now);
      NothingDoomed(env, GcBackups(env, w, install, now).w, install, now);
    } else {
      UnreadListing(env, w, install, now);
    }
  }

  lemma UnreadListing(env: Env, w: World, install: string, now: DateTime)
    requires !IsListingRead(env, w, install)
    ensures var t := GcBackups(env, w, install, now); Idle(w, t.w) && (t.r.Ok? ==> t.r.value == [])
  {
    hide Do, Doomed, ParseListing, BackupsPath, Idle;
    DoIdle(env.remote, w, FindBackups(BackupsPath(install)));
  }

  lemma NothingDoomed(env: Env, w: World, install: string, now: DateTime)
    requires GcDoomed(env, w, install, now) == []
    ensures var t := GcBackups(env, w, install, now); Idle(w, t.w) && (t.r.Ok? ==> t.r.value == [])
  {
    hide Do, Doomed, ParseListing, BackupsPath, Idle;
    DoIdle(env.remote, w, FindBackups(BackupsPath(install)));
  }
}
