// Which backups the garbage collector deletes.
module Retention {
  import opened Listing

  const MIN_RETAINED_BACKUPS := 3
  const RETENTION_SECONDS := 7 * 24 * 3600

  /** Stable insertion, newest first: equal times keep their order. */
  function InsertSorted(e: Entry, es: seq<Entry>): seq<Entry> {
    if es == [] then [e]
    else if e.epoch >= es[0].epoch then [e] + es
    else [es[0]] + InsertSorted(e, es[1..])
  }

  /** `sort_by_key(Reverse(epoch))`. */
  function SortNewestFirst(es: seq<Entry>): seq<Entry> {
    if es == [] then [] else InsertSorted(es[0], SortNewestFirst(es[1..]))
  }

  predicate IsNewestFirst(es: seq<Entry>) {
    forall i, j :: 0 <= i < j < |es| ==> es[i].epoch >= es[j].epoch
  }

  function WithEpoch(es: seq<Entry>, t: int): seq<Entry> {
    if es == [] then []
    else (if es[0].epoch == t then [es[0]] else []) + WithEpoch(es[1..], t)
  }

  lemma {:induction false} InsertPermutes(e: Entry, es: seq<Entry>)
    ensures multiset(InsertSorted(e, es)) == multiset(es) + multiset{e}
  {
    if es != [] && e.epoch < es[0].epoch {
      InsertPermutes(e, es[1..]);
      assert es == [es[0]] + es[1..];
    }
  }

  lemma {:induction false} InsertKeepsOrder(e: Entry, es: seq<Entry>)
    requires IsNewestFirst(es)
    ensures IsNewestFirst(InsertSorted(e, es))
  {
    if es != [] && e.epoch < es[0].epoch {
      var rest := InsertSorted(e, es[1..]);
      InsertKeepsOrder(e, es[1..]);
      InsertPermutes(e, es[1..]);
      forall x | x in rest
        ensures x.epoch <= es[0].epoch
      {
        assert x in multiset(rest);
        assert x == e || x in multiset(es[1..]);
      }
    }
  }

  function IfEpoch(e: Entry, t: int): seq<Entry> {
    if e.epoch == t then [e] else []
  }

  lemma EpochFront(e: Entry, es: seq<Entry>, t: int)
    ensures WithEpoch([e] + es, t) == IfEpoch(e, t) + WithEpoch(es, t)
  {
    assert ([e] + es)[1..] == es;
  }

  lemma {:induction false} InsertIsStable(e: Entry, es: seq<Entry>, t: int)
    ensures WithEpoch(InsertSorted(e, es), t) == IfEpoch(e, t) + WithEpoch(es, t)
  {
    if es == [] || e.epoch >= es[0].epoch {
      assert InsertSorted(e, es) == [e] + es;
      hide WithEpoch, InsertSorted;
      EpochFront(e, es, t);
    } else {
      var rest := InsertSorted(e, es[1..]);
      assert InsertSorted(e, es) == [es[0]] + rest && es == [es[0]] + es[1..];
      hide WithEpoch, InsertSorted;
      InsertIsStable(e, es[1..], t);
      EpochFront(es[0], rest, t);
      EpochFront(es[0], es[1..], t);
      assert IfEpoch(e, t) == [] || IfEpoch(es[0], t) == [];
      assert IfEpoch(e, t) == [] ==> IfEpoch(es[0], t) + (IfEpoch(e, t) + WithEpoch(es[1..], t)) == WithEpoch(es, t);
    }
  }

  /** The sort is a permutation, newest first, and keeps entries of equal time in their order. */
  lemma {:induction false} SortFacts(es: seq<Entry>)
    ensures IsNewestFirst(SortNewestFirst(es))
    ensures multiset(SortNewestFirst(es)) == multiset(es)
    ensures |SortNewestFirst(es)| == |es|
    ensures forall t: int :: WithEpoch(SortNewestFirst(es), t) == WithEpoch(es, t)
  {
    if es != [] {
      var rest := SortNewestFirst(es[1..]);
      SortFacts(es[1..]);
      InsertKeepsOrder(es[0], rest);
      InsertPermutes(es[0], rest);
      assert es == [es[0]] + es[1..] && SortNewestFirst(es) == InsertSorted(es[0], rest);
      hide WithEpoch, InsertSorted, IsNewestFirst, SortNewestFirst;
      forall t: int
        ensures WithEpoch(SortNewestFirst(es), t) == WithEpoch(es, t)
      {
        InsertIsStable(es[0], rest, t);
        EpochFront(es[0], es[1..], t);
      }
    }
    assert |multiset(SortNewestFirst(es))| == |multiset(es)|;
  }

  /** Entries from position `idx` on that are past the retained ones and before the cutoff. */
  function DoomedFrom(sorted: seq<Entry>, cutoff: int, idx: nat): seq<Entry>
    requires idx <= |sorted|
    decreases |sorted| - idx
  {
    if idx == |sorted| then []
    else (if idx >= MIN_RETAINED_BACKUPS && sorted[idx].epoch < cutoff then [sorted[idx]] else [])
         + DoomedFrom(sorted, cutoff, idx + 1)
  }

  /** What the collector deletes, in order. */
  function Doomed(es: seq<Entry>, cutoff: int): seq<Entry> {
    DoomedFrom(SortNewestFirst(es), cutoff, 0)
  }

  /** Where deletion starts in the sorted order. */
  function FirstDoomed(sorted: seq<Entry>, cutoff: int, idx: nat): (k: nat)
    requires idx <= |sorted|
    ensures idx <= k <= |sorted|
    decreases |sorted| - idx
  {
    if idx == |sorted| || (idx >= MIN_RETAINED_BACKUPS && sorted[idx].epoch < cutoff) then idx
    else FirstDoomed(sorted, cutoff, idx + 1)
  }

  predicate IsOld(sorted: seq<Entry>, cutoff: int, i: nat)
    requires i < |sorted|
  {
    i >= MIN_RETAINED_BACKUPS && sorted[i].epoch < cutoff
  }

  lemma OldStaysOld(sorted: seq<Entry>, cutoff: int, i: nat, j: nat)
    requires i <= j < |sorted| && IsNewestFirst(sorted) && IsOld(sorted, cutoff, i)
    ensures IsOld(sorted, cutoff, j)
  {
  }

  lemma {:induction false} FirstDoomedIsFirst(sorted: seq<Entry>, cutoff: int, idx: nat)
    requires idx <= |sorted|
    ensures var k := FirstDoomed(sorted, cutoff, idx);
            && (forall i :: idx <= i < k ==> !IsOld(sorted, cutoff, i))
            && (k < |sorted| ==> IsOld(sorted, cutoff, k))
    decreases |sorted| - idx
  {
    if idx < |sorted| {
      FirstDoomedIsFirst(sorted, cutoff, idx + 1);
    }
  }

  lemma {:induction false} SkipsYoung(sorted: seq<Entry>, cutoff: int, idx: nat, k: nat)
    requires idx <= k <= |sorted| && forall i :: idx <= i < k ==> !IsOld(sorted, cutoff, i)
    ensures DoomedFrom(sorted, cutoff, idx) == DoomedFrom(sorted, cutoff, k)
    decreases k - idx
  {
    if idx < k {
      SkipsYoung(sorted, cutoff, idx + 1, k);
      assert !IsOld(sorted, cutoff, idx);
    }
  }

  lemma {:induction false} TakesOld(sorted: seq<Entry>, cutoff: int, idx: nat)
    requires idx <= |sorted| && forall i :: idx <= i < |sorted| ==> IsOld(sorted, cutoff, i)
    ensures DoomedFrom(sorted, cutoff, idx) == sorted[idx..]
    decreases |sorted| - idx
  {
    if idx < |sorted| {
      TakesOld(sorted, cutoff, idx + 1);
      assert IsOld(sorted, cutoff, idx);
      assert sorted[idx..] == [sorted[idx]] + sorted[idx + 1..];
    }
  }

  lemma DoomedIsSuffix(sorted: seq<Entry>, cutoff: int)
    requires IsNewestFirst(sorted)
    ensures var k := FirstDoomed(sorted, cutoff, 0);
            && DoomedFrom(sorted, cutoff, 0) == sorted[k..]
            && forall i :: 0 <= i < |sorted| ==> (i >= k <==> IsOld(sorted, cutoff, i))
  {
    hide IsNewestFirst, IsOld, DoomedFrom, FirstDoomed;
    var k := FirstDoomed(sorted, cutoff, 0);
    FirstDoomedIsFirst(sorted, cutoff, 0);
    forall i | k <= i < |sorted|
      ensures IsOld(sorted, cutoff, i)
    {
      OldStaysOld(sorted, cutoff, k, i);
    }
    SkipsYoung(sorted, cutoff, 0, k);
    TakesOld(sorted, cutoff, k);
  }

  /** The survivors, newest first. */
  function Kept(es: seq<Entry>, cutoff: int): seq<Entry> {
    var sorted := SortNewestFirst(es);
    sorted[..FirstDoomed(sorted, cutoff, 0)]
  }

  /** Exactly the entries from position `k` on are past the first three and older than the cutoff. */
  predicate SplitsAt(sorted: seq<Entry>, cutoff: int, k: nat) {
    && k <= |sorted|
    && forall i :: 0 <= i < |sorted| ==> (i >= k <==> i >= MIN_RETAINED_BACKUPS && sorted[i].epoch < cutoff)
  }

  /** The plan: deletions are a suffix of the newest-first order, exactly the entries past the
      first three and older than the cutoff; the rest is kept. */
  lemma RetentionPlan(es: seq<Entry>, cutoff: int)
    ensures SortNewestFirst(es) == Kept(es, cutoff) + Doomed(es, cutoff)
    ensures SplitsAt(SortNewestFirst(es), cutoff, |Kept(es, cutoff)|)
    ensures IsNewestFirst(SortNewestFirst(es)) && multiset(SortNewestFirst(es)) == multiset(es)
    ensures |Kept(es, cutoff)| >= if |es| < MIN_RETAINED_BACKUPS then |es| else MIN_RETAINED_BACKUPS
  {
    hide SortNewestFirst;
    var sorted := SortNewestFirst(es);
    SortFacts(es);
    DoomedIsSuffix(sorted, cutoff);
    var k := FirstDoomed(sorted, cutoff, 0);
    assert sorted == sorted[..k] + sorted[k..];
    assert Kept(es, cutoff) == sorted[..k];
    assert Doomed(es, cutoff) == sorted[k..];
    forall i | 0 <= i < |sorted|
      ensures i >= k <==> i >= MIN_RETAINED_BACKUPS && sorted[i].epoch < cutoff
    {
      assert i >= k <==> IsOld(sorted, cutoff, i);
    }
    assert SplitsAt(sorted, cutoff, k) && |Kept(es, cutoff)| == k;
    assert k < |sorted| ==> IsOld(sorted, cutoff, k);
  }

  /** Every deleted backup has three kept ones at least as new, and is older than the cutoff. */
  lemma DeletedHaveNewerSurvivors(es: seq<Entry>, cutoff: int, e: Entry)
    requires e in Doomed(es, cutoff)
    ensures e.epoch < cutoff && e in es && |Kept(es, cutoff)| >= 3
    ensures forall i :: 0 <= i < |Kept(es, cutoff)| ==> Kept(es, cutoff)[i].epoch >= e.epoch
  {
    hide SortNewestFirst, Kept, Doomed;
    RetentionPlan(es, cutoff);
    var sorted, kept := SortNewestFirst(es), Kept(es, cutoff);
    var i :| 0 <= i < |Doomed(es, cutoff)| && Doomed(es, cutoff)[i] == e;
    assert sorted[|kept| + i] == e;
    assert e in multiset(sorted);
    forall j | 0 <= j < |kept|
      ensures kept[j].epoch >= e.epoch
    {
      assert sorted[j] == kept[j];
    }
  }

  /** A second collection at the same time, over the survivors in any order, deletes nothing. */
  lemma SecondRunDeletesNothing(es: seq<Entry>, cutoff: int, left: seq<Entry>)
    requires multiset(left) == multiset(Kept(es, cutoff))
    ensures Doomed(left, cutoff) == []
  {
    hide SortNewestFirst;
    RetentionPlan(left, cutoff);
    OnlyRetainedAreOld(es, cutoff);
    var kept, sorted := Kept(es, cutoff), SortNewestFirst(left);
    assert |multiset(left)| == |multiset(kept)| == |multiset(sorted)|;
    forall x | x in sorted
      ensures x in kept
    {
      assert x in multiset(sorted);
    }
    if |kept| > 3 {
      forall i | 0 <= i < |sorted|
        ensures sorted[i].epoch >= cutoff
      {
        assert sorted[i] in kept;
      }
    }
    var k := |Kept(left, cutoff)|;
    assert |Doomed(left, cutoff)| == |sorted| - k;
  }

  /** When more than three are kept, all of them are recent. */
  lemma OnlyRetainedAreOld(es: seq<Entry>, cutoff: int)
    ensures |Kept(es, cutoff)| > 3 ==> forall i :: 0 <= i < |Kept(es, cutoff)| ==> Kept(es, cutoff)[i].epoch >= cutoff
  {
    hide SortNewestFirst;
    RetentionPlan(es, cutoff);
    var sorted, kept := SortNewestFirst(es), Kept(es, cutoff);
    if |kept| > 3 {
      assert sorted[|kept| - 1].epoch >= cutoff;
      forall i | 0 <= i < |kept|
        ensures kept[i].epoch >= cutoff
      {
        assert sorted[i] == kept[i];
      }
    }
  }

  // ---------------------------------------------------------------------------
  // The rule without the sort
  // ---------------------------------------------------------------------------

  /** How many entries have a later time. */
  function CountNewer(es: seq<Entry>, t: int): nat {
    if es == [] then 0 else (if es[0].epoch > t then 1 else 0) + CountNewer(es[1..], t)
  }

  /** How many entries have exactly this time. */
  function CountSame(es: seq<Entry>, t: int): nat {
    if es == [] then 0 else (if es[0].epoch == t then 1 else 0) + CountSame(es[1..], t)
  }

  /** How many entries come before entry `i` when the newest come first: those with a later time, and
      those with the same time that are listed earlier. */
  function Rank(es: seq<Entry>, i: nat): nat
    requires i < |es|
  {
    CountNewer(es, es[i].epoch) + CountSame(es[..i], es[i].epoch)
  }

  lemma RankAfter(e: Entry, es: seq<Entry>, i: nat)
    requires i < |es|
    ensures Rank([e] + es, i + 1) == Rank(es, i) + if e.epoch >= es[i].epoch then 1 else 0
  {
    var all := [e] + es;
    assert all[1..] == es && all[..i + 1][1..] == es[..i] && all[..i + 1][0] == e;
  }

  lemma RankFirst(e: Entry, es: seq<Entry>)
    ensures Rank([e] + es, 0) == CountNewer(es, e.epoch)
  {
    assert ([e] + es)[1..] == es && ([e] + es)[..0] == [];
  }

  /** In a list with the newest first, the later ones are exactly the first ones. */
  lemma {:induction false} NewerFirst(es: seq<Entry>, t: int)
    requires IsNewestFirst(es)
    ensures CountNewer(es, t) <= |es|
    ensures forall k :: 0 <= k < |es| ==> (k < CountNewer(es, t) <==> es[k].epoch > t)
  {
    if es != [] {
      NewerFirst(es[1..], t);
      forall k | 0 <= k < |es|
        ensures k < CountNewer(es, t) <==> es[k].epoch > t
      {
        if es[0].epoch > t {
          assert k > 0 ==> es[k] == es[1..][k - 1];
        } else {
          NoneNewer(es, t);
        }
      }
    }
  }

  lemma {:induction false} NoneNewer(es: seq<Entry>, t: int)
    requires forall k :: 0 <= k < |es| ==> es[k].epoch <= t
    ensures CountNewer(es, t) == 0
  {
    if es != [] {
      NoneNewer(es[1..], t);
    }
  }

  /** An insertion puts the entry behind exactly the later ones. */
  lemma {:induction false} InsertAt(e: Entry, es: seq<Entry>)
    requires IsNewestFirst(es)
    ensures CountNewer(es, e.epoch) <= |es|
    ensures var n := CountNewer(es, e.epoch); InsertSorted(e, es) == es[..n] + [e] + es[n..]
  {
    NewerFirst(es, e.epoch);
    if es != [] {
      if e.epoch >= es[0].epoch {
        NoneNewer(es, e.epoch);
      } else {
        InsertAt(e, es[1..]);
        var n := CountNewer(es[1..], e.epoch);
        assert es[..n + 1] == [es[0]] + es[1..][..n] && es[n + 1..] == es[1..][n..];
      }
    }
  }

  lemma {:induction false} CountPermuted(es: seq<Entry>, t: int)
    ensures CountNewer(SortNewestFirst(es), t) == CountNewer(es, t)
  {
    if es != [] {
      CountPermuted(es[1..], t);
      CountInsert(es[0], SortNewestFirst(es[1..]), t);
    }
  }

  lemma {:induction false} CountInsert(e: Entry, es: seq<Entry>, t: int)
    ensures CountNewer(InsertSorted(e, es), t) == CountNewer(es, t) + if e.epoch > t then 1 else 0
  {
    if es != [] && e.epoch < es[0].epoch {
      CountInsert(e, es[1..], t);
      assert ([es[0]] + InsertSorted(e, es[1..]))[1..] == InsertSorted(e, es[1..]);
    } else {
      assert ([e] + es)[1..] == es;
    }
  }

  /** Each entry stands at its rank in the sorted list. */
  lemma {:induction false} StandsAtRank(es: seq<Entry>, i: nat)
    requires i < |es|
    ensures Rank(es, i) < |SortNewestFirst(es)| && SortNewestFirst(es)[Rank(es, i)] == es[i]
    decreases |es|
  {
    var e, tail := es[0], es[1..];
    var rest := SortNewestFirst(tail);
    SortFacts(tail);
    InsertAt(e, rest);
    NewerFirst(rest, e.epoch);
    CountPermuted(tail, e.epoch);
    assert es == [e] + tail;
    hide InsertSorted, IsNewestFirst;
    if i == 0 {
      RankFirst(e, tail);
    } else {
      StandsAtRank(tail, i - 1);
      RankAfter(e, tail, i - 1);
    }
  }

  /** Each position of the sorted list holds the entry of that rank. */
  lemma {:induction false} HoldsRank(es: seq<Entry>, k: nat) returns (i: nat)
    requires k < |SortNewestFirst(es)|
    ensures i < |es| && Rank(es, i) == k && es[i] == SortNewestFirst(es)[k]
    decreases |es|
  {
    var e, tail := es[0], es[1..];
    var rest := SortNewestFirst(tail);
    SortFacts(tail);
    InsertAt(e, rest);
    NewerFirst(rest, e.epoch);
    CountPermuted(tail, e.epoch);
    assert es == [e] + tail;
    var n := CountNewer(rest, e.epoch);
    hide InsertSorted, IsNewestFirst;
    if k == n {
      i := 0;
      RankFirst(e, tail);
    } else {
      i := HoldsRank(tail, if k < n then k else k - 1);
      RankAfter(e, tail, i);
      i := i + 1;
    }
  }

  /** They come in the order of their ranks, which are the last ones. */
  lemma DoomedInOrder(es: seq<Entry>, cutoff: int, j: nat) returns (i: nat)
    requires j < |Doomed(es, cutoff)|
    ensures |Doomed(es, cutoff)| <= |es| && i < |es|
    ensures es[i] == Doomed(es, cutoff)[j] && Rank(es, i) == |es| - |Doomed(es, cutoff)| + j
  {
    hide SortNewestFirst, Kept, Doomed, Rank;
    RetentionPlan(es, cutoff);
    SortFacts(es);
    i := HoldsRank(es, |Kept(es, cutoff)| + j);
  }

  /** What the collector deletes, read off the unsorted listing: the entries before the cutoff that at
      least three others precede, newest first and in listing order at equal times. */
  lemma DoomedByRank(es: seq<Entry>, cutoff: int, e: Entry)
    ensures e in Doomed(es, cutoff) <==>
            exists i :: 0 <= i < |es| && es[i] == e && e.epoch < cutoff && Rank(es, i) >= 3
  {
    hide SortNewestFirst, Kept, Doomed, Rank;
    var sorted, kept, doomed := SortNewestFirst(es), Kept(es, cutoff), Doomed(es, cutoff);
    RetentionPlan(es, cutoff);
    if e in doomed {
      var j :| 0 <= j < |doomed| && doomed[j] == e;
      assert sorted[|kept| + j] == e;
      var i := HoldsRank(es, |kept| + j);
    }
    if i :| 0 <= i < |es| && es[i] == e && e.epoch < cutoff && Rank(es, i) >= 3 {
      StandsAtRank(es, i);
      assert doomed[Rank(es, i) - |kept|] == e;
    }
  }
}
