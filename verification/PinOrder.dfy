// Two pins written one after the other: when the order does not matter, and templates on which
// it does.
module PinOrder {
  import opened Compose

  predicate StartsWithin(x: string, y: string, s: string) {
    exists i :: 0 <= i < |x| && s <= (x + y)[i..]
  }

  lemma WithinTail(x: string, y: string, s: string)
    requires x != "" && !StartsWithin(x, y, s)
    ensures !StartsWithin(x[1..], y, s) && !(s <= x + y)
    ensures (x + y)[0] == x[0] && (x + y)[1..] == x[1..] + y && x == [x[0]] + x[1..]
  {
    var t := x + y;
    assert t[0..] == t && t[1..] == x[1..] + y;
    forall i | 0 <= i < |x[1..]|
      ensures !(s <= (x[1..] + y)[i..])
    {
      assert t[i + 1..] == (x[1..] + y)[i..];
    }
  }

  lemma {:induction false} ReplaceSkips(x: string, y: string, s: string, r: string)
    requires s != "" && !StartsWithin(x, y, s)
    ensures ReplaceAll(x + y, s, r) == x + ReplaceAll(y, s, r)
  {
    hide StartsWithin, ReplaceAll;
    if x == "" {
      assert x + y == y;
    } else {
      WithinTail(x, y, s);
      ReplaceNext(x + y, s, r);
      ReplaceSkips(x[1..], y, s, r);
    }
  }

  predicate Unrelated(s: string, x: string) {
    !(s <= x) && !(x <= s)
  }

  lemma SkipsOther(s: string, u: string, x: string)
    requires IsSearch(s) && IsSearch(x) && EndsClear(s) && Unrelated(s, x)
    ensures !StartsWithin(s, u, x)
  {
    forall i | 0 <= i < |s|
      ensures !(x <= (s + u)[i..])
    {
      if i > 0 {
        NoOverlap(s, x, u, i);
      } else {
        assert (s + u)[0..] == s + u;
      }
    }
  }

  lemma SkipsOtherMarked(s: string, d: string, u: string, x: string)
    requires IsSearch(s) && IsSearch(x) && IsMark(d) && EndsClear(s) && Unrelated(s, x)
    ensures !StartsWithin(s + d, u, x)
  {
    var t := s + d + u;
    SkipsOther(s, d + u, x);
    assert t == s + (d + u);
    forall i | 0 <= i < |s + d|
      ensures !(x <= t[i..])
    {
      assert x[0] == IMAGE[0] == 'i';
      assert i >= |s| ==> t[i] == d[i - |s|];
    }
  }

  lemma {:induction false} InsertsCommute(t: string, s: string, d: string, x: string, e: string)
    requires IsSearch(s) && IsSearch(x) && IsMark(d) && IsMark(e)
    requires EndsClear(s) && EndsClear(x) && Unrelated(s, x)
    ensures ReplaceAll(ReplaceAll(t, x, x + e), s, s + d) == ReplaceAll(ReplaceAll(t, s, s + d), x, x + e)
    decreases |t|
  {
    if t != "" {
      if s <= t {
        CommuteAt(t, s, d, x, e);
      } else if x <= t {
        CommuteAt(t, x, e, s, d);
      } else {
        InsertsCommute(t[1..], s, d, x, e);
        var a, b := ReplaceAll(t[1..], s, s + d), ReplaceAll(t[1..], x, x + e);
        assert ReplaceAll(t, x, x + e) == [t[0]] + b && ReplaceAll(t, s, s + d) == [t[0]] + a;
        if s <= [t[0]] + b {
          PrefixSurvives(s, t, x, e);
        }
        if x <= [t[0]] + a {
          PrefixSurvives(x, t, s, d);
        }
        assert ([t[0]] + a)[1..] == a && ([t[0]] + b)[1..] == b;
      }
    }
  }

  lemma {:induction false} CommuteAt(t: string, s: string, d: string, x: string, e: string)
    requires IsSearch(s) && IsSearch(x) && IsMark(d) && IsMark(e)
    requires EndsClear(s) && EndsClear(x) && Unrelated(s, x) && s <= t
    ensures ReplaceAll(ReplaceAll(t, x, x + e), s, s + d) == ReplaceAll(ReplaceAll(t, s, s + d), x, x + e)
    decreases |t|, 0
  {
    var u := t[|s|..];
    var a, b := ReplaceAll(u, s, s + d), ReplaceAll(u, x, x + e);
    assert t == s + u;
    SkipsOther(s, u, x);
    ReplaceSkips(s, u, x, x + e);
    ReplaceStep(s, b, s + d);
    SkipsOtherMarked(s, d, a, x);
    ReplaceSkips(s + d, a, x, x + e);
    InsertsCommute(u, s, d, x, e);
  }

  // The other direction: templates on which the order shows.

  lemma SpaceMarksStart(t: string, s: string, i: nat)
    requires IsSearch(s) && i <= |t| && s <= t[i..]
    ensures i + 6 < |t| && t[i + 6] == ' ' && t[i] == 'i'
  {
    assert s[6] == IMAGE[6] == ' ' && s[0] == IMAGE[0] == 'i';
    assert t[i..][6] == ' ' && t[i..][0] == 'i';
  }

  /** A text whose spaces all come too early holds no reference. */
  lemma NoLateSpace(t: string, s: string, r: string)
    requires IsSearch(s) && forall i :: 6 <= i < |t| ==> t[i] != ' '
    ensures ReplaceAll(t, s, r) == t
  {
    assert t + "" == t;
    forall i | 0 <= i < |t|
      ensures !(s <= (t + "")[i..])
    {
      if s <= t[i..] {
        SpaceMarksStart(t, s, i);
      }
    }
    ReplaceSkips(t, "", s, r);
  }

  /** A text whose spaces, but for one near the front, do not follow "image:" holds a reference
      only at the front. */
  lemma OnlyAtFront(t: string, s: string, r: string)
    requires IsSearch(s) && !(s <= t)
    requires forall i :: 0 < i && i + 6 < |t| && t[i + 6] == ' ' ==> t[i] != 'i'
    ensures ReplaceAll(t, s, r) == t
  {
    assert t + "" == t;
    forall i | 0 <= i < |t|
      ensures !(s <= (t + "")[i..])
    {
      if s <= t[i..] {
        SpaceMarksStart(t, s, i);
      }
    }
    ReplaceSkips(t, "", s, r);
  }

  lemma MarkedSpaces(s: string, d: string, x: string, n: nat, i: nat)
    requires IsSearch(s) && IsMark(d) && IsSearch(x) && |d| > 6 && 1 <= n <= |x|
    requires var a := s + d + x[n..]; 0 < i && i + 6 < |a| && a[i + 6] == ' '
    ensures (s + d + x[n..])[i] != 'i'
  {
    var a, m := s + d + x[n..], |s| + |d|;
    assert i + 6 >= |s|;
    assert a[i + 6] == x[i + 6 - m + n];
    assert i + 6 - m + n <= 6;
    assert a[i] == d[i - |s|];
  }

  lemma NotAtFront(s: string, d: string, x: string, tail: string)
    requires IsMark(d) && '@' !in x && !(x <= s)
    ensures !(x <= s + d + tail)
  {
    var a := s + d + tail;
    assert a[..|s|] == s && a[|s|] == '@';
    assert |x| <= |s| ==> a[..|x|] == s[..|x|];
  }

  lemma MarkedHoldsNone(s: string, d: string, x: string, n: nat, r: string)
    requires IsSearch(s) && IsMark(d) && IsSearch(x) && |d| > 6 && 1 <= n <= |x| && !(x <= s)
    ensures ReplaceAll(s + d + x[n..], x, r) == s + d + x[n..]
  {
    var a := s + d + x[n..];
    NotAtFront(s, d, x, x[n..]);
    forall i | 0 < i && i + 6 < |a| && a[i + 6] == ' '
      ensures a[i] != 'i'
    {
      MarkedSpaces(s, d, x, n, i);
    }
    OnlyAtFront(a, x, r);
  }

  predicate NoSpace(t: string) {
    forall i :: 0 <= i < |t| ==> t[i] != ' '
  }

  lemma NoSpaceAfter(x: string, n: nat, e: string)
    requires IsSearch(x) && 7 <= n <= |x| && IsMark(e)
    ensures NoSpace(x[n..]) && NoSpace(e) && NoSpace(x[n..] + e)
  {
  }

  lemma MarkBefore(s: string, d: string, rest: string)
    requires IsSearch(s) && NoSpace(rest)
    ensures ReplaceAll(s + rest, s, s + d) == s + d + rest
  {
    NoLateSpace(rest, s, s + d);
    ReplaceStep(s, rest, s + d);
  }

  /** The same reference with two different marks: the later one lands next to the reference. */
  lemma TwinsDisagree(s: string, d: string, e: string)
    requires IsSearch(s) && IsMark(d) && IsMark(e) && |d| == |e| && d != e
    ensures ReplaceAll(ReplaceAll(s, s, s + e), s, s + d) != ReplaceAll(ReplaceAll(s, s, s + d), s, s + e)
  {
    MarkBefore(s, d, "");
    MarkBefore(s, e, "");
    MarkBefore(s, d, e);
    MarkBefore(s, e, d);
    assert s + "" == s && s + d + "" == s + d && s + e + "" == s + e;
    assert (s + d + e)[|s|..|s| + |d|] == d && (s + e + d)[|s|..|s| + |e|] == e;
  }

  lemma MarkWhole(x: string, e: string)
    requires IsSearch(x)
    ensures ReplaceAll(x, x, x + e) == x + e
  {
    hide IsSearch, ReplaceAll;
    assert x + "" == x && x + e + "" == x + e;
    MarkBefore(x, e, "");
  }

  /** A reference and the longer one it begins. */
  lemma LongerParts(s: string, x: string, e: string)
    requires IsSearch(s) && IsSearch(x) && IsMark(e) && s <= x && s != x
    ensures x == s + x[|s|..] && x + e == s + (x[|s|..] + e)
    ensures NoSpace(x[|s|..]) && NoSpace(x[|s|..] + e)
    ensures !(x <= s) && |s| > 7 && e != ""
  {
    NoSpaceAfter(x, |s|, e);
  }

  /** `s` begins `x`: marking `s` first breaks the longer reference. */
  lemma PrefixDisagree(s: string, d: string, x: string, e: string)
    requires IsSearch(s) && IsSearch(x) && IsMark(d) && IsMark(e) && |d| > 6
    requires s <= x && s != x
    ensures ReplaceAll(ReplaceAll(x, x, x + e), s, s + d) != ReplaceAll(ReplaceAll(x, s, s + d), x, x + e)
  {
    assert s != "" && x != "" && 1 <= |s| <= |x|;
    hide *;
    LongerParts(s, x, e);
    var tail := x[|s|..];
    MarkWhole(x, e);
    MarkBefore(s, d, tail);
    MarkBefore(s, d, tail + e);
    MarkedHoldsNone(s, d, x, |s|, x + e);
    LongerDiffers(s, d, tail, e);
  }

  lemma LongerDiffers(s: string, d: string, tail: string, e: string)
    requires e != ""
    ensures s + d + (tail + e) != s + d + tail
  {
    assert |s + d + (tail + e)| > |s + d + tail|;
  }

  /** `s` ends in the beginning of "image": on two overlapping references the passes disagree. */
  lemma OverlapDisagree(s: string, d: string, x: string, e: string, n: nat)
    requires IsSearch(s) && IsSearch(x) && IsMark(d) && IsMark(e) && |d| > 6
    requires Unrelated(s, x) && 1 <= n <= 6 && s[|s| - n..] == IMAGE[..n]
    ensures var t := s[..|s| - n] + x;
            ReplaceAll(ReplaceAll(t, x, x + e), s, s + d) != ReplaceAll(ReplaceAll(t, s, s + d), x, x + e)
  {
    assert |s| > 7 && |x| > 7;
    hide IsSearch, IsMark, ReplaceAll, Unrelated;
    OverlapText(s, x, n);
    OverlapFirst(s, d, x, e, n);
    OverlapSecond(s, x, e, n);
    OverlapLonger(s, d, x[n..], e);
  }

  lemma OverlapText(s: string, x: string, n: nat)
    requires IsSearch(s) && IsSearch(x) && 1 <= n <= 6 && s[|s| - n..] == IMAGE[..n]
    ensures s[|s| - n..] == x[..n] && s[..|s| - n] + x == s + x[n..]
  {
    assert x[..n] == x[..7][..n] == IMAGE[..n];
    var head := s[..|s| - n];
    assert s == head + s[|s| - n..] && x == x[..n] + x[n..];
    assert head + (x[..n] + x[n..]) == head + x[..n] + x[n..];
  }

  lemma OverlapLonger(s: string, d: string, tail: string, e: string)
    requires IsSearch(s) && IsMark(d) && IsMark(e)
    ensures ReplaceAll(s + (tail + e), s, s + d) != s + d + tail
  {
    ReplaceStep(s, tail + e, s + d);
    MatchesGrow(tail + e, s, d);
    var rest := ReplaceAll(tail + e, s, s + d);
    assert |s + d + rest| > |s + d + tail|;
  }

  lemma OverlapFirst(s: string, d: string, x: string, e: string, n: nat)
    requires IsSearch(s) && IsSearch(x) && IsMark(d) && IsMark(e) && |d| > 6
    requires Unrelated(s, x) && 1 <= n <= 6
    ensures ReplaceAll(ReplaceAll(s + x[n..], s, s + d), x, x + e) == s + d + x[n..]
  {
    OverlapTail(x, n, s, s + d);
    ReplaceStep(s, x[n..], s + d);
    MarkedHoldsNone(s, d, x, n, x + e);
  }

  lemma OverlapTail(x: string, n: nat, s: string, r: string)
    requires IsSearch(x) && IsSearch(s) && 1 <= n <= 6
    ensures ReplaceAll(x[n..], s, r) == x[n..]
  {
    forall i | 6 <= i < |x[n..]|
      ensures x[n..][i] != ' '
    {
      assert x[n..][i] == x[n + i];
    }
    NoLateSpace(x[n..], s, r);
  }

  lemma NoneInside(s: string, x: string, n: nat, i: nat)
    requires IsSearch(s) && IsSearch(x) && 1 <= n <= 6 && s[|s| - n..] == x[..n] && 0 < i < |s| - n
    ensures !(x <= (s[..|s| - n] + x)[i..])
  {
    var t := s[..|s| - n] + x;
    if x <= t[i..] {
      SpaceMarksStart(t, x, i);
    }
  }

  lemma NoneAtStart(s: string, x: string, n: nat)
    requires n <= |s| && n <= |x| && Unrelated(s, x) && s[|s| - n..] == x[..n]
    ensures !(x <= s[..|s| - n] + x)
  {
    var t := s[..|s| - n] + x;
    assert t == s + x[n..] by {
      HeadEnd(s, x, "", n);
      assert x + "" == x && x[n..] + "" == x[n..];
    }
    if x <= t {
      PrefixesOfSum(s, x[n..], x);
    }
  }

  lemma HeadHoldsNone(s: string, x: string, n: nat)
    requires IsSearch(s) && IsSearch(x) && Unrelated(s, x) && 1 <= n <= 6 && s[|s| - n..] == x[..n]
    ensures !StartsWithin(s[..|s| - n], x, x)
  {
    assert |s| > 7 && |x| > 7;
    hide IsSearch, Unrelated;
    NoneAtStart(s, x, n);
    var head := s[..|s| - n];
    var t := head + x;
    forall i | 0 <= i < |head|
      ensures !(x <= t[i..])
    {
      if i > 0 {
        NoneInside(s, x, n, i);
      } else {
        assert t[0..] == t;
      }
    }
  }

  lemma PrefixesOfSum(s: string, y: string, x: string)
    requires x <= s + y
    ensures x <= s || s <= x
  {
    assert |x| <= |s| ==> (s + y)[..|x|] == s[..|x|];
    assert |x| > |s| ==> (s + y)[..|s|] == s;
  }

  lemma HeadEnd(s: string, x: string, e: string, n: nat)
    requires n <= |s| && n <= |x| && s[|s| - n..] == x[..n]
    ensures s[..|s| - n] + (x + e) == s + (x[n..] + e)
  {
    var head := s[..|s| - n];
    assert s == head + s[|s| - n..] && x == x[..n] + x[n..];
    assert head + (x[..n] + x[n..] + e) == head + x[..n] + (x[n..] + e);
  }

  lemma OverlapSecond(s: string, x: string, e: string, n: nat)
    requires IsSearch(s) && IsSearch(x) && IsMark(e)
    requires Unrelated(s, x) && 1 <= n <= 6 && s[|s| - n..] == x[..n]
    ensures ReplaceAll(s[..|s| - n] + x, x, x + e) == s + (x[n..] + e)
  {
    assert |s| > 7 && |x| > 7;
    hide *;
    HeadHoldsNone(s, x, n);
    ReplaceSkips(s[..|s| - n], x, x, x + e);
    MarkWhole(x, e);
    HeadEnd(s, x, e, n);
  }

  predicate Commutes(k: Key, j: Key, t: string) {
    Insert(Insert(t, k), j) == Insert(Insert(t, j), k)
  }

  /** The caller's check for two pins: no tag begins the other in the same repository, and neither
      ends in a nonempty prefix of "image". */
  predicate OrderFree(k: Key, j: Key) {
    && IsTagClear(k.tag) && IsTagClear(j.tag)
    && !(k.repo == j.repo && (k.tag <= j.tag || j.tag <= k.tag))
  }

  lemma PrefixMeansTagPrefix(r0: string, t0: string, r1: string, t1: string)
    requires ':' !in r0 && ':' !in r1
    ensures r0 + ":" + t0 <= r1 + ":" + t1 <==> r0 == r1 && t0 <= t1
  {
    var s, x := r0 + ":" + t0, r1 + ":" + t1;
    assert s[..|r0|] == r0 && s[|r0|] == ':' && s[|r0| + 1..] == t0;
    assert x[..|r1|] == r1 && x[|r1|] == ':' && x[|r1| + 1..] == t1;
    if s <= x {
      assert x[..|r0|] == s[..|r0|];
      assert x[|r0| + 1..|s|] == s[|r0| + 1..];
    }
    if r0 == r1 && t0 <= t1 {
      assert x[..|s|] == s;
    }
  }

  lemma SamePrefix(h: string, a: string, b: string)
    ensures h + a <= h + b <==> a <= b
  {
    assert (h + a)[|h|..] == a && (h + b)[|h|..] == b;
    if h + a <= h + b {
      assert (h + b)[..|h| + |a|] == h + a;
      assert (h + b)[..|h| + |a|][|h|..] == b[..|a|];
    }
    if a <= b {
      assert b == a + b[|a|..];
      assert h + b == h + a + b[|a|..];
    }
  }

  lemma SearchParts(k: Key)
    requires IsKey(k)
    ensures Search(k) == IMAGE + (k.repo + ":" + k.tag) && ':' !in k.repo
  {
    assert IMAGE + k.repo + ":" + k.tag == IMAGE + (k.repo + ":" + k.tag);
  }

  lemma RelatedSearches(k: Key, j: Key)
    requires IsKey(k) && IsKey(j)
    ensures Search(k) <= Search(j) <==> k.repo == j.repo && k.tag <= j.tag
  {
    hide *;
    SearchParts(k);
    SearchParts(j);
    PrefixMeansTagPrefix(k.repo, k.tag, j.repo, j.tag);
    SamePrefix(IMAGE, k.repo + ":" + k.tag, j.repo + ":" + j.tag);
  }

  /** Two pins can be written in either order, on every template, exactly when they are the same
      or pass the caller's check. */
  lemma OrderIrrelevant(k: Key, j: Key)
    requires IsKey(k) && IsKey(j)
    ensures (forall t: string :: Commutes(k, j, t)) <==> k == j || OrderFree(k, j)
  {
    if OrderFree(k, j) {
      forall t: string
        ensures Commutes(k, j, t)
      {
        OrderFreeCommutes(k, j, t);
      }
    } else if k != j {
      SearchesOf(k, j);
      OrderShows(k, j);
    }
  }

  lemma OrderFreeCommutes(k: Key, j: Key, t: string)
    requires IsKey(k) && IsKey(j) && OrderFree(k, j)
    ensures Commutes(k, j, t)
  {
    SearchesOf(k, j);
    InsertsCommute(t, Search(k), Mark(k), Search(j), Mark(j));
  }

  /** All the facts about two keys that the passes depend on. */
  predicate WellShaped(k: Key, j: Key) {
    && IsSearch(Search(k)) && IsSearch(Search(j)) && IsMark(Mark(k)) && IsMark(Mark(j))
    && |Mark(k)| == |Mark(j)| == 72
    && (Search(k) == Search(j) && Mark(k) == Mark(j) ==> k == j)
    && (OrderFree(k, j) <==> EndsClear(Search(k)) && EndsClear(Search(j)) && Unrelated(Search(k), Search(j)))
  }

  lemma SearchesOf(k: Key, j: Key)
    requires IsKey(k) && IsKey(j)
    ensures WellShaped(k, j) && WellShaped(j, k)
  {
    hide Search, IsSearch, IsMark, IsKey;
    SearchShape(k);
    SearchShape(j);
    ClearTagClearSearch(k);
    ClearTagClearSearch(j);
    RelatedSearches(k, j);
    RelatedSearches(j, k);
    assert Mark(k)[1..] == k.digest && Mark(j)[1..] == j.digest;
    if Search(k) == Search(j) {
      assert k.tag == j.tag;
    }
  }

  lemma PassesCommute(k: Key, j: Key, t: string)
    ensures var s, d, x, e := Search(k), Mark(k), Search(j), Mark(j);
            Commutes(k, j, t) <==> ReplaceAll(ReplaceAll(t, x, x + e), s, s + d) == ReplaceAll(ReplaceAll(t, s, s + d), x, x + e)
  {
    hide ReplaceAll, Search, Mark;
  }

  lemma Overlap(s: string) returns (n: nat)
    requires !EndsClear(s)
    ensures 1 <= n <= 6 && n <= |s| && s[|s| - n..] == IMAGE[..n]
  {
    n :| 1 <= n <= 6 && n <= |s| && s[|s| - n..] == IMAGE[..n];
  }

  /** A search text that ends in the beginning of "image". */
  lemma OverlapShows(k: Key, j: Key)
    requires WellShaped(k, j) && Unrelated(Search(k), Search(j)) && !EndsClear(Search(k))
    ensures exists t: string :: !Commutes(k, j, t)
  {
    var s, d, x, e := Search(k), Mark(k), Search(j), Mark(j);
    hide Search, Mark, IsSearch, IsMark, Unrelated, EndsClear, OrderFree, Commutes, ReplaceAll;
    var n := Overlap(s);
    var t := s[..|s| - n] + x;
    OverlapDisagree(s, d, x, e, n);
    PassesCommute(k, j, t);
    assert !Commutes(k, j, t);
  }

  lemma TwinsShow(k: Key, j: Key)
    requires WellShaped(k, j) && k != j && Search(k) == Search(j)
    ensures exists t: string :: !Commutes(k, j, t)
  {
    hide Search, Mark, ReplaceAll, Commutes, IsSearch, IsMark, OrderFree, EndsClear, Unrelated;
    TwinsDisagree(Search(k), Mark(k), Mark(j));
    PassesCommute(k, j, Search(k));
    assert !Commutes(k, j, Search(k));
  }

  lemma PrefixShows(k: Key, j: Key)
    requires WellShaped(k, j) && Search(k) <= Search(j) && Search(k) != Search(j)
    ensures exists t: string :: !Commutes(k, j, t)
  {
    hide Search, Mark, ReplaceAll, Commutes, IsSearch, IsMark, OrderFree, EndsClear, Unrelated;
    PrefixDisagree(Search(k), Mark(k), Search(j), Mark(j));
    PassesCommute(k, j, Search(j));
    assert !Commutes(k, j, Search(j));
  }

  lemma CommutesSymmetric(k: Key, j: Key)
    requires exists t: string :: !Commutes(j, k, t)
    ensures exists t: string :: !Commutes(k, j, t)
  {
    hide Insert;
    var t :| !Commutes(j, k, t);
    assert !Commutes(k, j, t);
  }

  lemma OrderShows(k: Key, j: Key)
    requires WellShaped(k, j) && WellShaped(j, k) && k != j && !OrderFree(k, j)
    ensures exists t: string :: !Commutes(k, j, t)
  {
    var s, x := Search(k), Search(j);
    assert EndsClear(s) && EndsClear(x) ==> s <= x || x <= s;
    assert Unrelated(s, x) <==> !(s <= x) && !(x <= s);
    assert Unrelated(x, s) <==> !(s <= x) && !(x <= s);
    hide *;
    if s == x {
      TwinsShow(k, j);
    } else if s <= x {
      PrefixShows(k, j);
    } else if x <= s {
      PrefixShows(j, k);
      CommutesSymmetric(k, j);
    } else if !EndsClear(s) {
      OverlapShows(k, j);
    } else {
      OverlapShows(j, k);
      CommutesSymmetric(k, j);
    }
  }
}
