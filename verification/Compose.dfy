// Rewriting the `image:` lines of a compose file to digest pins.
module Compose {
  import opened Text
  import opened Validators
  import opened State

  /** `str::replace`: leftmost occurrences that do not overlap, each replaced by `r`. */
  function ReplaceAll(t: string, s: string, r: string): (out: string)
    requires s != ""
    ensures IsBytes(t) && IsBytes(r) ==> IsBytes(out)
    decreases |t|
  {
    if t == "" then ""
    else if s <= t then r + ReplaceAll(t[|s|..], s, r)
    else [t[0]] + ReplaceAll(t[1..], s, r)
  }

  /** What identifies a pin for the renderer. */
  datatype Key = Key(repo: string, tag: string, digest: string)

  function KeyOf(p: ImagePin): Key {
    Key(p.repo, p.tag, p.digest)
  }

  predicate IsKey(k: Key) {
    IsRepo(k.repo) && IsTag(k.tag) && IsDigest(k.digest)
  }

  const IMAGE := "image: "

  function Search(k: Key): (s: string)
    ensures |s| > 7
  {
    IMAGE + k.repo + ":" + k.tag
  }

  function Mark(k: Key): (d: string)
    ensures d != ""
  {
    "@" + k.digest
  }

  /** What is searched is the reference by tag, and what is inserted behind it the digest. */
  lemma SearchSpelled(k: Key)
    ensures Search(k) == "image: " + k.repo + ":" + k.tag && Mark(k) == "@" + k.digest
  {
  }

  /** One pass of the renderer. */
  function Insert(t: string, k: Key): string {
    ReplaceAll(t, Search(k), Search(k) + Mark(k))
  }

  function InsertAll(t: string, ks: seq<Key>): string
    decreases |ks|
  {
    if ks == [] then t else InsertAll(Insert(t, ks[0]), ks[1..])
  }

  // ---------------------------------------------------------------------------
  // The shape of what is searched and what is inserted
  // ---------------------------------------------------------------------------

  /** A search text: its only space is the one after "image:", and it has no '@'. */
  predicate IsSearch(s: string) {
    && |s| > 7 && s[..7] == IMAGE
    && '@' !in s && forall i :: 7 <= i < |s| ==> s[i] != ' '
  }

  predicate IsMark(d: string) {
    d != "" && d[0] == '@' && forall i :: 0 <= i < |d| ==> d[i] != 'i' && d[i] != ' '
  }

  lemma SearchShape(k: Key)
    requires IsKey(k)
    ensures IsSearch(Search(k)) && IsMark(Mark(k)) && |Mark(k)| == 72
    ensures IMAGE + PinnedImageRef(k.repo, k.tag, k.digest).value == Search(k) + Mark(k)
  {
    var s, d := Search(k), Mark(k);
    var rest := k.repo + ":" + k.tag;
    assert s[7..] == rest;
    forall i | 7 <= i < |s|
      ensures s[i] != ' ' && s[i] != '@'
    {
      assert s[i] == rest[i - 7];
      assert s[i] in k.repo || s[i] == ':' || s[i] in k.tag;
    }
    forall i | 0 <= i < |d|
      ensures d[i] != 'i' && d[i] != ' '
    {
      if i >= 8 {
        assert d[i] == k.digest[7..][i - 8];
        assert k.digest[7..][i - 8] in k.digest[7..];
      } else if i > 0 {
        assert d[i] == k.digest[..7][i - 1] == DIGEST_PREFIX[i - 1];
      }
    }
    assert s[..7] == IMAGE;
    assert s + d == IMAGE + (k.repo + ":" + k.tag + "@" + k.digest);
  }

  // ---------------------------------------------------------------------------
  // One pin: nothing but the insertions changes, and every reference ends up pinned
  // ---------------------------------------------------------------------------

  /** A text without '@' that starts the output already started the input. */
  lemma {:induction false} PrefixSurvives(x: string, t: string, s: string, d: string)
    requires IsSearch(s) && IsMark(d) && '@' !in x
    requires x <= ReplaceAll(t, s, s + d)
    ensures x <= t
    decreases |t|
  {
    if t != "" && x != "" {
      if s <= t {
        var out := s + d + ReplaceAll(t[|s|..], s, s + d);
        assert out[|s|] == '@';
        assert x == out[..|x|] == s[..|x|] == t[..|x|];
      } else {
        var rest := ReplaceAll(t[1..], s, s + d);
        assert x[1..] <= rest;
        PrefixSurvives(x[1..], t[1..], s, d);
        assert x == [x[0]] + x[1..] && t == [t[0]] + t[1..];
      }
    }
  }

  lemma ReplaceStep(s: string, u: string, r: string)
    requires s != ""
    ensures ReplaceAll(s + u, s, r) == r + ReplaceAll(u, s, r)
  {
    assert (s + u)[|s|..] == u;
  }

  lemma ReplaceNext(t: string, s: string, r: string)
    requires s != "" && t != "" && !(s <= t)
    ensures ReplaceAll(t, s, r) == [t[0]] + ReplaceAll(t[1..], s, r)
  {
  }

  lemma ReplaceHere(t: string, s: string, r: string)
    requires s != "" && s <= t
    ensures ReplaceAll(t, s, r) == r + ReplaceAll(t[|s|..], s, r) && t == s + t[|s|..]
  {
  }

  lemma NoMarkedStart(t: string, s: string, d: string)
    requires IsSearch(s) && IsMark(d) && t != "" && !(s <= t)
    ensures !(s + d <= [t[0]] + ReplaceAll(t[1..], s, s + d))
  {
    assert '@' !in s;
    hide IsSearch, IsMark, ReplaceAll;
    ReplaceNext(t, s, s + d);
    if s + d <= ReplaceAll(t, s, s + d) {
      assert s <= s + d;
      PrefixSurvives(s, t, s, d);
    }
  }

  /** Taking the marks out again gives the template back: nothing else was changed. */
  lemma {:induction false} StripUndoesInsert(t: string, s: string, d: string)
    requires IsSearch(s) && IsMark(d)
    ensures ReplaceAll(ReplaceAll(t, s, s + d), s + d, s) == t
    decreases |t|
  {
    if t != "" {
      assert s != "";
      hide IsSearch, IsMark, ReplaceAll;
      if s <= t {
        StripUndoesInsert(t[|s|..], s, d);
        ReplaceHere(t, s, s + d);
        ReplaceStep(s + d, ReplaceAll(t[|s|..], s, s + d), s);
      } else {
        StripUndoesInsert(t[1..], s, d);
        NoMarkedStart(t, s, d);
        ReplaceNext(t, s, s + d);
        var out := [t[0]] + ReplaceAll(t[1..], s, s + d);
        ReplaceNext(out, s + d, s);
        assert out[1..] == ReplaceAll(t[1..], s, s + d);
      }
    }
  }

  /** Every occurrence of `s` carries the mark right after it. */
  predicate FullyMarked(out: string, s: string, d: string) {
    forall i :: 0 <= i <= |out| && s <= out[i..] ==> s + d <= out[i..]
  }

  lemma {:induction false} InsertMarksAll(t: string, s: string, d: string)
    requires IsSearch(s) && IsMark(d)
    ensures FullyMarked(ReplaceAll(t, s, s + d), s, d)
    decreases |t|
  {
    if t != "" {
      assert s != "";
      hide IsSearch, IsMark, ReplaceAll, FullyMarked;
      if s <= t {
        ReplaceHere(t, s, s + d);
        InsertMarksAll(t[|s|..], s, d);
        MarkedHead(ReplaceAll(t[|s|..], s, s + d), s, d);
      } else {
        ReplaceNext(t, s, s + d);
        InsertMarksAll(t[1..], s, d);
        if s <= ReplaceAll(t, s, s + d) {
          SearchPlain(s);
          PrefixSurvives(s, t, s, d);
        }
        MarkedNext(t[0], ReplaceAll(t[1..], s, s + d), s, d);
      }
    } else {
      MarkedNothing(s, d);
    }
  }

  lemma MarkedNothing(s: string, d: string)
    requires IsSearch(s)
    ensures FullyMarked(ReplaceAll("", s, s + d), s, d)
  {
  }

  lemma SearchPlain(s: string)
    requires IsSearch(s)
    ensures '@' !in s
  {
  }

  lemma MarkedHead(rest: string, s: string, d: string)
    requires IsSearch(s) && IsMark(d) && FullyMarked(rest, s, d)
    ensures FullyMarked(s + d + rest, s, d)
  {
    hide IsSearch, IsMark;
    var out, n := s + d + rest, |s + d|;
    forall i | 0 <= i <= |out| && s <= out[i..]
      ensures s + d <= out[i..]
    {
      if i >= n {
        assert out[i..] == rest[i - n..];
      } else if i > 0 {
        NoStartInside(s, d, rest, i);
      }
    }
  }

  lemma MarkedNext(c: char, rest: string, s: string, d: string)
    requires FullyMarked(rest, s, d) && !(s <= [c] + rest)
    ensures FullyMarked([c] + rest, s, d)
  {
    var out := [c] + rest;
    forall i | 0 <= i <= |out| && s <= out[i..]
      ensures s + d <= out[i..]
    {
      if i >= 1 {
        assert out[i..] == rest[i - 1..];
      }
    }
  }

  /** In `s + d + rest` the search text starts nowhere inside `s + d` but at its beginning. */
  lemma NoStartInside(s: string, d: string, rest: string, i: nat)
    requires IsSearch(s) && IsMark(d)
    requires 0 < i < |s| + |d|
    ensures !(s <= (s + d + rest)[i..])
  {
    var out := s + d + rest;
    assert s[0] == IMAGE[0] == 'i';
    assert out[|s|] == d[0];
    assert i >= |s| ==> out[i] == d[i - |s|];
    assert i < |s| ==> out[i..][|s| - i] == '@';
  }

  // ---------------------------------------------------------------------------
  // How many references are pinned
  // ---------------------------------------------------------------------------

  /** Occurrences, overlapping ones included. */
  function Count(t: string, s: string): nat {
    if t == "" then 0 else (if s <= t then 1 else 0) + Count(t[1..], s)
  }

  /** Occurrences that `str::replace` replaces. */
  function Matches(t: string, s: string): nat
    requires s != ""
    decreases |t|
  {
    if t == "" then 0
    else if s <= t then 1 + Matches(t[|s|..], s)
    else Matches(t[1..], s)
  }

  lemma {:induction false} MatchesGrow(t: string, s: string, d: string)
    requires s != "" && d != ""
    ensures |ReplaceAll(t, s, s + d)| >= |t|
    ensures Matches(t, s) > 0 ==> |ReplaceAll(t, s, s + d)| > |t|
    decreases |t|
  {
    if t != "" {
      MatchesGrow(if s <= t then t[|s|..] else t[1..], s, d);
    }
  }

  /** No nonempty prefix of "image" ends the tag: the caller's check against overlaps. */
  predicate IsTagClear(tag: string) {
    forall n :: 1 <= n <= 5 && n <= |tag| ==> tag[|tag| - n..] != IMAGE[..n]
  }

  predicate EndsClear(s: string) {
    forall n :: 1 <= n <= 6 && n <= |s| ==> s[|s| - n..] != IMAGE[..n]
  }

  lemma SuffixOfSearch(k: Key, n: nat)
    requires IsKey(k) && 1 <= n <= 6
    ensures |Search(k)| > 7
    ensures n <= |k.tag| ==> Search(k)[|Search(k)| - n..] == k.tag[|k.tag| - n..]
    ensures n > |k.tag| || n == 6 ==> Search(k)[|Search(k)| - n..] != IMAGE[..n]
  {
    var s, m := Search(k), |k.tag|;
    assert s == (IMAGE + k.repo + ":") + k.tag;
    assert s[|s| - 1 - m] == ':';
    assert s[|s| - 1] == k.tag[m - 1] && k.tag[m - 1] in k.tag;
    if n > m {
      assert s[|s| - n..][n - 1 - m] == ':' != IMAGE[n - 1 - m] == IMAGE[..n][n - 1 - m];
    } else if n == 6 {
      assert s[|s| - 6..][5] == k.tag[m - 1] != ':' == IMAGE[..6][5];
    }
  }

  lemma ClearTagClearSearch(k: Key)
    requires IsKey(k)
    ensures EndsClear(Search(k)) <==> IsTagClear(k.tag)
  {
    hide Search, IsKey;
    forall n: nat | 1 <= n <= 6
      ensures |Search(k)| > 7
      ensures Search(k)[|Search(k)| - n..] != IMAGE[..n] <==> n == 6 || n > |k.tag| || k.tag[|k.tag| - n..] != IMAGE[..n]
    {
      SuffixOfSearch(k, n);
    }
  }

  /** An occurrence of a search text cannot start inside another one that ends clear. */
  lemma NoOverlap(s: string, x: string, y: string, i: nat)
    requires IsSearch(s) && IsSearch(x) && EndsClear(s)
    requires 0 < i < |s|
    ensures !(x <= (s + y)[i..])
  {
    var t, m := s + y, |s| - i;
    assert x[6] == IMAGE[6] == ' ';
    if m >= 7 {
      assert i + 6 < |s| ==> t[i..][6] == s[i + 6];
    } else {
      assert s[|s| - m..] != IMAGE[..m];
      assert t[i..][..m] == s[i..];
      assert x[..m] == x[..7][..m] == IMAGE[..m];
    }
  }

  lemma {:induction false} CountSkip(x: string, y: string, s: string)
    requires forall i :: 0 <= i < |x| ==> !(s <= (x + y)[i..])
    ensures Count(x + y, s) == Count(y, s)
  {
    var t := x + y;
    if x == "" {
      assert t == y;
    } else {
      assert t[1..] == x[1..] + y;
      assert t[0..] == t;
      forall i | 0 <= i < |x[1..]|
        ensures !(s <= (x[1..] + y)[i..])
      {
        assert t[i + 1..] == (x[1..] + y)[i..];
      }
      CountSkip(x[1..], y, s);
    }
  }

  lemma CountTail(x: string, y: string, s: string)
    requires x != "" && s <= x + y
    requires forall i :: 0 < i < |x| ==> !(s <= (x + y)[i..])
    ensures Count(x + y, s) == 1 + Count(y, s)
  {
    var t := x + y;
    assert t[1..] == x[1..] + y;
    forall i | 0 <= i < |x[1..]|
      ensures !(s <= (x[1..] + y)[i..])
    {
      assert t[i + 1..] == (x[1..] + y)[i..];
    }
    CountSkip(x[1..], y, s);
  }

  /** The output holds one reference for each one replaced: insertion creates none. */
  lemma {:induction false} InsertCreatesNone(t: string, s: string, d: string)
    requires IsSearch(s) && IsMark(d)
    ensures Count(ReplaceAll(t, s, s + d), s) == Matches(t, s)
    decreases |t|
  {
    if t != "" {
      if s <= t {
        var rest := ReplaceAll(t[|s|..], s, s + d);
        InsertCreatesNone(t[|s|..], s, d);
        forall i | 0 < i < |s + d|
          ensures !(s <= (s + d + rest)[i..])
        {
          NoStartInside(s, d, rest, i);
        }
        CountTail(s + d, rest, s);
      } else {
        var rest := ReplaceAll(t[1..], s, s + d);
        InsertCreatesNone(t[1..], s, d);
        if s <= [t[0]] + rest {
          PrefixSurvives(s, t, s, d);
        }
        assert ([t[0]] + rest)[1..] == rest;
      }
    }
  }

  lemma {:induction false} ClearMatchesAll(t: string, s: string)
    requires IsSearch(s) && EndsClear(s)
    ensures Matches(t, s) == Count(t, s)
    decreases |t|
  {
    if t != "" {
      if s <= t {
        var u := t[|s|..];
        assert t == s + u;
        ClearMatchesAll(u, s);
        forall i | 0 < i < |s|
          ensures !(s <= (s + u)[i..])
        {
          NoOverlap(s, s, u, i);
        }
        CountTail(s, u, s);
      } else {
        ClearMatchesAll(t[1..], s);
      }
    }
  }

  lemma {:induction false} CountAt(t: string, s: string, j: nat)
    requires s != "" && j < |t| && s <= t[j..]
    ensures Count(t, s) >= 1
  {
    if j == 0 {
      assert t[0..] == t;
    } else {
      assert t[j..] == t[1..][j - 1..];
      CountAt(t[1..], s, j - 1);
    }
  }

  lemma FirstCounts(t: string, s: string)
    requires s != "" && s <= t
    ensures Count(t, s) == 1 + Count(t[1..], s) && Matches(t, s) == 1 + Matches(t[|s|..], s)
  {
  }

  lemma OverlapFacts(s: string, n: nat)
    requires 1 <= n <= 6 && n < |s| && s[|s| - n..] == s[..n]
    ensures var t, j := s[..|s| - n] + s, |s| - n;
            s <= t && s <= t[1..][j - 1..] && |t[|s|..]| < |s| && |t| > |s|
  {
    var j := |s| - n;
    var t := s[..j] + s;
    assert t[..|s|] == s[..j] + s[..n] == s[..j] + s[j..] == s;
    assert t[1..][j - 1..] == s;
  }

  /** Two overlapping references, of which only one can be replaced. */
  lemma OverlapLosesOne(s: string, n: nat)
    requires IsSearch(s) && 1 <= n <= 6 && s[|s| - n..] == IMAGE[..n]
    ensures var t := s[..|s| - n] + s; Matches(t, s) == 1 && Count(t, s) >= 2
  {
    assert |s| > 7 && s[..n] == s[..7][..n] == IMAGE[..n];
    hide *;
    var t := s[..|s| - n] + s;
    OverlapFacts(s, n);
    FirstCounts(t, s);
    CountAt(t[1..], s, |s| - n - 1);
    ShortMatchesNone(t[|s|..], s);
  }

  lemma {:induction false} ShortMatchesNone(t: string, s: string)
    requires |t| < |s|
    ensures Matches(t, s) == 0
    decreases |t|
  {
    if t != "" {
      ShortMatchesNone(t[1..], s);
    }
  }

  /** References are all replaced, in every template, exactly when the tag does not end in a
      nonempty prefix of "image". */
  lemma CountPreserved(k: Key)
    requires IsKey(k)
    ensures (forall t: string :: Count(Insert(t, k), Search(k)) == Count(t, Search(k))) <==> IsTagClear(k.tag)
  {
    var s, d := Search(k), Mark(k);
    SearchShape(k);
    ClearTagClearSearch(k);
    forall t: string
      ensures Count(Insert(t, k), s) == Matches(t, s)
    {
      InsertCreatesNone(t, s, d);
    }
    if IsTagClear(k.tag) {
      forall t: string
        ensures Matches(t, s) == Count(t, s)
      {
        ClearMatchesAll(t, s);
      }
    } else {
      var n :| 1 <= n <= 6 && n <= |s| && s[|s| - n..] == IMAGE[..n];
      OverlapLosesOne(s, n);
      var t := s[..|s| - n] + s;
      assert Count(Insert(t, k), s) != Count(t, s);
    }
  }
}
