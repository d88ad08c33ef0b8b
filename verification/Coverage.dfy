// Which references to a repository end up with a digest: those, and only those, that name a pinned tag
// in the template.
module Coverage {
  import opened Text
  import opened Validators
  import opened State
  import opened Compose
  import opened PinOrder
  import opened Render

  /** What a reference to any tag of the repository starts with. */
  function Head(repo: string): string {
    IMAGE + repo + ":"
  }

  predicate IsNamed(t: string, ks: set<Key>) {
    exists k :: k in ks && Search(k) <= t
  }

  predicate IsPinned(t: string, ks: set<Key>) {
    exists k :: k in ks && Search(k) + Mark(k) <= t
  }

  /** Every place where `h` starts names one of the pinned tags. */
  predicate AllNamed(t: string, h: string, ks: set<Key>) {
    forall i :: 0 <= i < |t| && h <= t[i..] ==> IsNamed(t[i..], ks)
  }

  /** Every place where `h` starts is a pinned tag followed by its digest. */
  predicate AllPinned(t: string, h: string, ks: set<Key>) {
    forall i :: 0 <= i < |t| && h <= t[i..] ==> IsPinned(t[i..], ks)
  }

  lemma HeadIsSearch(repo: string)
    requires IsRepo(repo)
    ensures IsSearch(Head(repo))
  {
    var h := Head(repo);
    assert h[..7] == IMAGE && h[7..] == repo + ":";
    forall i | 7 <= i < |h|
      ensures h[i] != ' ' && h[i] != '@'
    {
      assert h[i] == (repo + ":")[i - 7];
      assert h[i] in repo || h[i] == ':';
    }
  }

  lemma NamedTail(t: string, h: string, ks: set<Key>)
    requires t != ""
    ensures AllNamed(t, h, ks) <==> (h <= t ==> IsNamed(t, ks)) && AllNamed(t[1..], h, ks)
  {
    hide IsNamed;
    assert t[0..] == t;
    forall i | 0 <= i < |t[1..]|
      ensures t[1..][i..] == t[i + 1..]
    {
    }
    if AllNamed(t, h, ks) {
      forall i | 0 <= i < |t[1..]| && h <= t[1..][i..]
        ensures IsNamed(t[1..][i..], ks)
      {
        assert h <= t[i + 1..];
      }
    }
    if (h <= t ==> IsNamed(t, ks)) && AllNamed(t[1..], h, ks) {
      forall i | 0 <= i < |t| && h <= t[i..]
        ensures IsNamed(t[i..], ks)
      {
        if i > 0 {
          assert t[1..][i - 1..] == t[i..];
        }
      }
    }
  }

  /** Nothing starts inside `x`: what matters is what follows it. */
  lemma {:induction false} NamedSkips(x: string, y: string, h: string, ks: set<Key>)
    requires forall i :: 0 <= i < |x| ==> !(h <= (x + y)[i..])
    ensures AllNamed(x + y, h, ks) <==> AllNamed(y, h, ks)
  {
    hide AllNamed, IsNamed;
    if x == "" {
      assert x + y == y;
    } else {
      var t := x + y;
      assert t[0..] == t && t[1..] == x[1..] + y;
      forall i | 0 <= i < |x[1..]|
        ensures !(h <= (x[1..] + y)[i..])
      {
        assert t[i + 1..] == (x[1..] + y)[i..];
      }
      NamedTail(t, h, ks);
      NamedSkips(x[1..], y, h, ks);
    }
  }

  lemma TwoPrefixes(s: string, y: string, t: string)
    requires s <= t && y <= t
    ensures s <= y || (|y| < |s| && y <= s)
  {
    if |s| <= |y| {
      assert y[..|s|] == t[..|s|] == s;
    } else {
      assert s[..|y|] == t[..|y|] == y;
    }
  }

  lemma {:induction false} PrefixKept(y: string, t: string, s: string, d: string)
    requires s != "" && y <= t && forall i :: 0 <= i < |y| ==> !(s <= y[i..])
    ensures y <= ReplaceAll(t, s, s + d)
    decreases |t|
  {
    if y != "" {
      assert y[0..] == y;
      if s <= t {
        TwoPrefixes(s, y, t);
        assert s <= ReplaceAll(t, s, s + d);
      } else {
        forall i | 0 <= i < |y[1..]|
          ensures !(s <= y[1..][i..])
        {
          assert y[1..][i..] == y[i + 1..];
        }
        assert y[1..] <= t[1..];
        PrefixKept(y[1..], t[1..], s, d);
        assert y == [y[0]] + y[1..];
      }
    }
  }

  lemma NoSearchInside(s: string, x: string, i: nat)
    requires IsSearch(s) && IsSearch(x) && 0 < i <= |x|
    ensures !(s <= x[i..])
  {
    if s <= x[i..] {
      SpaceMarksStart(x, s, i);
    }
  }

  lemma PrefixTransitive(s: string, x: string, t: string)
    requires s <= x && x <= t
    ensures s <= t
  {
    assert x == t[..|x|] && s == x[..|s|];
  }

  /** Where nothing is replaced right here, a search text starts the output exactly if it starts the input. */
  lemma SameStart(x: string, t: string, s: string, d: string)
    requires IsSearch(s) && IsSearch(x) && IsMark(d) && !(s <= t)
    ensures x <= t <==> x <= ReplaceAll(t, s, s + d)
  {
    assert '@' !in x && s != "";
    hide IsSearch, IsMark, ReplaceAll;
    if x <= t {
      if s <= x {
        PrefixTransitive(s, x, t);
      }
      forall i | 0 <= i < |x|
        ensures !(s <= x[i..])
      {
        if i > 0 {
          NoSearchInside(s, x, i);
        } else {
          assert x[0..] == x;
        }
      }
      PrefixKept(x, t, s, d);
    }
    if x <= ReplaceAll(t, s, s + d) {
      PrefixSurvives(x, t, s, d);
    }
  }

  lemma SameNamed(t: string, s: string, d: string, ks: set<Key>)
    requires IsSearch(s) && IsMark(d) && !(s <= t) && forall k :: k in ks ==> IsSearch(Search(k))
    ensures IsNamed(t, ks) <==> IsNamed(ReplaceAll(t, s, s + d), ks)
  {
    hide IsSearch, IsMark, ReplaceAll, Search;
    forall k | k in ks
      ensures Search(k) <= t <==> Search(k) <= ReplaceAll(t, s, s + d)
    {
      SameStart(Search(k), t, s, d);
    }
  }

  /** No reference starts inside a replaced one, nor inside the mark. */
  lemma InsideMarked(s: string, d: string, u: string, h: string, i: nat)
    requires IsSearch(s) && IsSearch(h) && IsMark(d) && EndsClear(s) && 0 < i < |s + d|
    ensures !(h <= (s + d + u)[i..])
  {
    var t := s + d + u;
    assert h[0] == IMAGE[0] == 'i';
    if i < |s| {
      NoOverlap(s, h, d + u, i);
      assert t == s + (d + u);
    } else {
      assert t[i] == d[i - |s|] && t[i..] != "" && t[i..][0] == t[i];
    }
  }

  /** A text that names a pin, and inside whose front part nothing starts. */
  lemma FrontNamed(x: string, y: string, h: string, ks: set<Key>)
    requires x != "" && IsNamed(x + y, ks) && forall i :: 0 < i < |x| ==> !(h <= (x + y)[i..])
    ensures AllNamed(x + y, h, ks) <==> AllNamed(y, h, ks)
  {
    hide AllNamed, IsNamed;
    NamedTail(x + y, h, ks);
    assert (x + y)[1..] == x[1..] + y;
    forall i | 0 <= i < |x[1..]|
      ensures !(h <= (x[1..] + y)[i..])
    {
      assert (x + y)[i + 1..] == (x[1..] + y)[i..];
    }
    NamedSkips(x[1..], y, h, ks);
  }

  lemma MatchedNamed(s: string, d: string, u: string, out: string, h: string, ks: set<Key>)
    requires IsSearch(s) && IsSearch(h) && IsMark(d) && EndsClear(s)
    requires IsNamed(s + u, ks) && IsNamed(s + d + out, ks)
    ensures AllNamed(s + u, h, ks) <==> AllNamed(u, h, ks)
    ensures AllNamed(s + d + out, h, ks) <==> AllNamed(out, h, ks)
  {
    assert s != "";
    hide AllNamed, IsNamed, IsSearch, IsMark, EndsClear;
    var t, marked := s + u, s + d + out;
    forall i | 0 < i < |s|
      ensures !(h <= t[i..])
    {
      NoOverlap(s, h, u, i);
    }
    FrontNamed(s, u, h, ks);
    forall i | 0 < i < |s + d|
      ensures !(h <= marked[i..])
    {
      InsideMarked(s, d, out, h, i);
    }
    FrontNamed(s + d, out, h, ks);
  }

  lemma NamedBy(k: Key, t: string, ks: set<Key>)
    requires k in ks && Search(k) <= t
    ensures IsNamed(t, ks)
  {
  }

  /** One pass of the renderer changes nothing about which references name a pinned tag. */
  lemma {:induction false} PassKeepsNamed(t: string, k: Key, h: string, ks: set<Key>)
    requires k in ks && IsSearch(Search(k)) && IsMark(Mark(k)) && EndsClear(Search(k)) && IsSearch(h)
    requires forall j :: j in ks ==> IsSearch(Search(j))
    ensures AllNamed(ReplaceAll(t, Search(k), Search(k) + Mark(k)), h, ks) <==> AllNamed(t, h, ks)
    decreases |t|
  {
    hide AllNamed, IsNamed, IsSearch, IsMark, EndsClear, Search, Mark, ReplaceAll;
    var s, d := Search(k), Mark(k);
    if t == "" {
      EmptyPass(s, s + d);
    } else if s <= t {
      ReplaceHere(t, s, s + d);
      var u := t[|s|..];
      var out := ReplaceAll(u, s, s + d);
      PassKeepsNamed(u, k, h, ks);
      NamedBy(k, s + u, ks);
      assert s <= s + d + out;
      NamedBy(k, s + d + out, ks);
      MatchedNamed(s, d, u, out, h, ks);
    } else {
      ReplaceNext(t, s, s + d);
      var rest := ReplaceAll(t[1..], s, s + d);
      PassKeepsNamed(t[1..], k, h, ks);
      SameStart(h, t, s, d);
      SameNamed(t, s, d, ks);
      NamedTail(t, h, ks);
      NamedTail([t[0]] + rest, h, ks);
      assert ([t[0]] + rest)[1..] == rest;
    }
  }

  lemma EmptyPass(s: string, r: string)
    requires s != ""
    ensures ReplaceAll("", s, r) == ""
  {
  }

  /** Keys the renderer can write, each with a tag that no reference overlaps. */
  predicate AllClear(ks: set<Key>) {
    forall k :: k in ks ==> IsSearch(Search(k)) && IsMark(Mark(k)) && EndsClear(Search(k))
  }

  lemma {:induction false} PassesKeepNamed(t: string, js: seq<Key>, h: string, ks: set<Key>)
    requires AllClear(ks) && IsSearch(h) && forall j :: j in js ==> j in ks
    ensures AllNamed(InsertAll(t, js), h, ks) <==> AllNamed(t, h, ks)
    decreases |js|
  {
    hide AllNamed, IsSearch, IsMark, EndsClear, Search, Mark, ReplaceAll;
    if js != [] {
      assert js[0] in js && forall j :: j in js[1..] ==> j in js;
      PassKeepsNamed(t, js[0], h, ks);
      PassesKeepNamed(Insert(t, js[0]), js[1..], h, ks);
    }
  }

  lemma MarkedIsPinned(t: string, h: string, ks: set<Key>)
    requires forall k :: k in ks ==> FullyMarked(t, Search(k), Mark(k))
    ensures AllPinned(t, h, ks) <==> AllNamed(t, h, ks)
  {
    hide Search, Mark;
    forall i | 0 <= i < |t|
      ensures IsPinned(t[i..], ks) <==> IsNamed(t[i..], ks)
    {
      if IsNamed(t[i..], ks) {
        var k :| k in ks && Search(k) <= t[i..];
        assert FullyMarked(t, Search(k), Mark(k));
        assert Search(k) + Mark(k) <= t[i..];
      }
      if IsPinned(t[i..], ks) {
        var k :| k in ks && Search(k) + Mark(k) <= t[i..];
        assert Search(k) <= Search(k) + Mark(k) <= t[i..];
      }
    }
  }

  predicate TagsClear(pins: seq<ImagePin>) {
    forall p :: p in pins ==> IsTagClear(p.tag)
  }

  lemma ClearKeys(pins: seq<ImagePin>)
    requires PinsCompatible(pins) && TagsClear(pins)
    ensures AllClear(Keys(pins))
  {
    hide Search, Mark, IsSearch, IsMark, EndsClear, IsTagClear, Compatible;
    CompatibleValid(pins);
    forall k | k in Keys(pins)
      ensures IsSearch(Search(k)) && IsMark(Mark(k)) && EndsClear(Search(k))
    {
      var p :| p in pins && KeyOf(p) == k;
      SearchShape(k);
      ClearTagClearSearch(k);
    }
  }

  /** After rendering compatible pins whose tags pass the check against overlaps, every reference to a
      repository carries a digest exactly when every one in the template names a pinned tag. */
  lemma RenderCovers(template: Bytes, pins: seq<ImagePin>, repo: string)
    requires PinsCompatible(pins) && TagsClear(pins) && IsRepo(repo)
    ensures RenderPins(template, pins).Ok?
    ensures AllPinned(RenderPins(template, pins).value, Head(repo), Keys(pins)) <==> AllNamed(template, Head(repo), Keys(pins))
  {
    hide Compatible, AllNamed, AllPinned, Head, IsRepo, FullyMarked, TagsClear, AllClear;
    ClearKeys(pins);
    CompatibleValid(pins);
    RenderInserts(template, pins);
    DistinctFacts(pins, {});
    HeadIsSearch(repo);
    PassesKeepNamed(template, Distinct(pins, {}), Head(repo), Keys(pins));
    forall k | k in Keys(pins)
      ensures FullyMarked(RenderPins(template, pins).value, Search(k), Mark(k))
    {
      var p :| p in pins && KeyOf(p) == k;
      RenderPinsEverything(template, pins, p);
    }
    MarkedIsPinned(RenderPins(template, pins).value, Head(repo), Keys(pins));
  }
}
