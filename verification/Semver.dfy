// The highest dotted-numeric tag.
module Semver {
  import opened Wrappers
  import opened Text

  const U64_MAX := 0xffff_ffff_ffff_ffff

  /** `str::parse::<u64>()`: an optional '+', then digits, within 64 bits. */
  function ParseU64(s: string): Option<nat> {
    match ParseNat(if s != "" && s[0] == '+' then s[1..] else s)
    case None => None
    case Some(n) => if n <= U64_MAX then Some(n) else None
  }

  function ParseComponents(parts: seq<string>): Option<seq<nat>> {
    if parts == [] then Some([])
    else
      var head, tail := ParseU64(parts[0]), ParseComponents(parts[1..]);
      if head.Some? && tail.Some? then Some([head.value] + tail.value) else None
  }

  function ParseDottedNumeric(t: string): Option<seq<nat>> {
    ParseComponents(Split(t, '.'))
  }

  /** `Vec<u64>` order: lexicographic, a proper prefix is smaller. */
  predicate Less(a: seq<nat>, b: seq<nat>) {
    b != [] && (a == [] || a[0] < b[0] || (a[0] == b[0] && Less(a[1..], b[1..])))
  }

  /** `a` is a proper prefix of `b`, or smaller at the first position where they differ. */
  predicate Precedes(a: seq<nat>, b: seq<nat>) {
    || (|a| < |b| && a == b[..|a|])
    || exists k :: 0 <= k < |a| && k < |b| && a[..k] == b[..k] && a[k] < b[k]
  }

  /** The recursive comparison is the lexicographic order. */
  lemma {:induction false} LessIsLexicographic(a: seq<nat>, b: seq<nat>)
    ensures Less(a, b) <==> Precedes(a, b)
    decreases |a|
  {
    if a != [] && b != [] {
      LessIsLexicographic(a[1..], b[1..]);
      if a[0] == b[0] {
        PrecedesAfter(a, b);
      } else if a[0] < b[0] {
        assert a[..0] == b[..0];
      } else {
        assert forall k :: 0 < k < |a| && k < |b| ==> a[..k][0] != b[..k][0];
      }
    }
  }

  lemma PrecedesAfter(a: seq<nat>, b: seq<nat>)
    requires a != [] && b != [] && a[0] == b[0]
    ensures Precedes(a, b) <==> Precedes(a[1..], b[1..])
  {
    var x, y := a[1..], b[1..];
    assert a == [a[0]] + x && b == [a[0]] + y;
    if |a| < |b| && a == b[..|a|] {
      assert b[..|a|][1..] == y[..|x|];
    }
    if |x| < |y| && x == y[..|x|] {
      assert b[..|a|] == [a[0]] + y[..|x|];
    }
    if k :| 0 <= k < |a| && k < |b| && a[..k] == b[..k] && a[k] < b[k] {
      assert k > 0 && a[..k][1..] == x[..k - 1] && b[..k][1..] == y[..k - 1];
      assert x[k - 1] < y[k - 1];
    }
    if k :| 0 <= k < |x| && k < |y| && x[..k] == y[..k] && x[k] < y[k] {
      assert a[..k + 1] == [a[0]] + x[..k] && b[..k + 1] == [a[0]] + y[..k];
      assert a[k + 1] < b[k + 1];
    }
  }

  lemma {:induction false} LessTransitive(a: seq<nat>, b: seq<nat>, c: seq<nat>)
    requires Less(a, b) && Less(b, c)
    ensures Less(a, c)
  {
    if a != [] && a[0] == b[0] == c[0] {
      LessTransitive(a[1..], b[1..], c[1..]);
    }
  }

  lemma {:induction false} LessTotal(a: seq<nat>, b: seq<nat>)
    ensures Less(a, b) || a == b || Less(b, a)
    ensures !(Less(a, b) && Less(b, a)) && !Less(a, a)
  {
    if a != [] && b != [] {
      LessTotal(a[1..], b[1..]);
      LessTotal(a[1..], a[1..]);
      assert a == [a[0]] + a[1..] && b == [b[0]] + b[1..];
    } else if a != [] {
      LessTotal(a[1..], a[1..]);
    }
  }

  /** The tag kept after looking at the whole list, as the loop keeps it. */
  function PickLatestSemver(tags: seq<string>): Option<string> {
    if tags == [] then None
    else
      var t, before := tags[|tags| - 1], PickLatestSemver(tags[..|tags| - 1]);
      if ParseDottedNumeric(t).None? then before
      else if before.None? then Some(t)
      else if Beats(t, before.value) then Some(t) else before
  }

  /** `t` parses to a strictly greater vector. */
  predicate Beats(t: string, u: string) {
    ParseDottedNumeric(t).Some? && ParseDottedNumeric(u).Some?
    && Less(ParseDottedNumeric(u).value, ParseDottedNumeric(t).value)
  }

  method PickLatest(tags: seq<string>) returns (r: Option<string>)
    ensures r == PickLatestSemver(tags)
  {
    var best: Option<(seq<nat>, string)> := None;
    var i := 0;
    while i < |tags|
      invariant 0 <= i <= |tags|
      invariant best.Some? ==> ParseDottedNumeric(best.value.1) == Some(best.value.0)
      invariant PickLatestSemver(tags[..i]) == if best.None? then None else Some(best.value.1)
    {
      var t := tags[i];
      assert tags[..i + 1][..i] == tags[..i];
      var parts := ParseDottedNumeric(t);
      if parts.Some? {
        if best.None? || Less(best.value.0, parts.value) {
          best := Some((parts.value, t));
        }
      }
      i := i + 1;
    }
    assert tags[..i] == tags;
    return if best.None? then None else Some(best.value.1);
  }

  /** Position `k` holds the first tag with the greatest vector. */
  predicate IsFirstMaximum(tags: seq<string>, k: nat) {
    && k < |tags| && ParseDottedNumeric(tags[k]).Some?
    && (forall j :: 0 <= j < |tags| ==> !Beats(tags[j], tags[k]))
    && (forall j :: 0 <= j < k && ParseDottedNumeric(tags[j]).Some? ==> Beats(tags[k], tags[j]))
  }

  /** No answer exactly when no tag parses; otherwise the first tag with the greatest vector. */
  lemma {:induction false} PicksFirstMaximum(tags: seq<string>)
    ensures PickLatestSemver(tags).None? <==> forall t :: t in tags ==> ParseDottedNumeric(t).None?
    ensures PickLatestSemver(tags).Some? ==>
              exists k: nat :: IsFirstMaximum(tags, k) && PickLatestSemver(tags) == Some(tags[k])
    decreases |tags|
  {
    if tags != [] {
      var n := |tags| - 1;
      var t, init := tags[n], tags[..n];
      var before := PickLatestSemver(init);
      PicksFirstMaximum(init);
      assert tags == init + [t];
      hide IsFirstMaximum;
      if before.Some? {
        var k: nat :| IsFirstMaximum(init, k) && before == Some(init[k]);
        MaximumParses(init, k);
        if Beats(t, before.value) {
          NewMaximum(init, t, k);
        } else {
          OldMaximum(init, t, k);
        }
      } else if ParseDottedNumeric(t).Some? {
        FirstMaximum(init, t);
      }
    }
  }

  lemma MaximumParses(tags: seq<string>, k: nat)
    requires IsFirstMaximum(tags, k)
    ensures k < |tags| && ParseDottedNumeric(tags[k]).Some?
  {
  }

  lemma NewMaximum(init: seq<string>, t: string, k: nat)
    requires IsFirstMaximum(init, k) && Beats(t, init[k])
    ensures IsFirstMaximum(init + [t], |init|)
  {
    hide Beats, ParseDottedNumeric;
    BeatsParses(t, init[k]);
    forall j | 0 <= j < |init| && ParseDottedNumeric(init[j]).Some?
      ensures Beats(t, init[j]) && !Beats(init[j], t)
    {
      BeatsStep(t, init[k], init[j]);
      BeatsOneWay(t, init[j]);
    }
    forall j | 0 <= j < |init| + 1
      ensures !Beats((init + [t])[j], t)
    {
      if j < |init| {
        BeatsParses(init[j], t);
      } else {
        BeatsIrreflexive(t);
      }
    }
  }

  lemma OldMaximum(init: seq<string>, t: string, k: nat)
    requires IsFirstMaximum(init, k) && !Beats(t, init[k])
    ensures IsFirstMaximum(init + [t], k)
  {
    hide Beats, ParseDottedNumeric;
    var tags := init + [t];
    forall j | 0 <= j < |tags|
      ensures !Beats(tags[j], tags[k])
    {
      assert j < |init| ==> tags[j] == init[j];
    }
  }

  lemma FirstMaximum(init: seq<string>, t: string)
    requires ParseDottedNumeric(t).Some? && forall u :: u in init ==> ParseDottedNumeric(u).None?
    ensures IsFirstMaximum(init + [t], |init|)
  {
    hide Beats, ParseDottedNumeric;
    var tags := init + [t];
    forall j | 0 <= j < |tags|
      ensures !Beats(tags[j], t)
    {
      if j < |init| {
        assert tags[j] in init;
        BeatsParses(tags[j], t);
      } else {
        BeatsIrreflexive(t);
      }
    }
    forall j | 0 <= j < |init|
      ensures ParseDottedNumeric(tags[j]).None?
    {
      assert tags[j] in init;
    }
  }

  lemma BeatsParses(t: string, m: string)
    ensures Beats(t, m) ==> ParseDottedNumeric(t).Some? && ParseDottedNumeric(m).Some?
  {
  }

  lemma BeatsOneWay(t: string, u: string)
    requires Beats(t, u)
    ensures !Beats(u, t)
  {
    LessTotal(ParseDottedNumeric(u).value, ParseDottedNumeric(t).value);
  }

  lemma BeatsIrreflexive(t: string)
    ensures !Beats(t, t)
  {
    if ParseDottedNumeric(t).Some? {
      LessTotal(ParseDottedNumeric(t).value, ParseDottedNumeric(t).value);
    }
  }

  lemma BeatsStep(t: string, m: string, u: string)
    requires Beats(t, m) && !Beats(u, m) && ParseDottedNumeric(u).Some?
    ensures Beats(t, u)
  {
    var x, y, z := ParseDottedNumeric(t).value, ParseDottedNumeric(m).value, ParseDottedNumeric(u).value;
    LessTotal(y, z);
    if z != y {
      LessTransitive(z, y, x);
    }
  }

  /** Position `k` holds the latest tag, on the parsed vectors: no tag's vector is after its own, and
      those before it in the list are smaller. */
  predicate IsLatest(tags: seq<string>, k: nat) {
    && k < |tags| && ParseDottedNumeric(tags[k]).Some?
    && forall j :: 0 <= j < |tags| && ParseDottedNumeric(tags[j]).Some? ==>
         && !Precedes(ParseDottedNumeric(tags[k]).value, ParseDottedNumeric(tags[j]).value)
         && (j < k ==> Precedes(ParseDottedNumeric(tags[j]).value, ParseDottedNumeric(tags[k]).value))
  }

  lemma MaximumIsLatest(tags: seq<string>, k: nat)
    ensures IsFirstMaximum(tags, k) <==> IsLatest(tags, k)
  {
    hide Precedes, Less, ParseDottedNumeric;
    if k < |tags| && ParseDottedNumeric(tags[k]).Some? {
      forall j | 0 <= j < |tags| && ParseDottedNumeric(tags[j]).Some?
        ensures Beats(tags[j], tags[k]) <==>
                Precedes(ParseDottedNumeric(tags[k]).value, ParseDottedNumeric(tags[j]).value)
        ensures Beats(tags[k], tags[j]) <==>
                Precedes(ParseDottedNumeric(tags[j]).value, ParseDottedNumeric(tags[k]).value)
      {
        LessIsLexicographic(ParseDottedNumeric(tags[k]).value, ParseDottedNumeric(tags[j]).value);
        LessIsLexicographic(ParseDottedNumeric(tags[j]).value, ParseDottedNumeric(tags[k]).value);
      }
      forall j | 0 <= j < |tags| && ParseDottedNumeric(tags[j]).None?
        ensures !Beats(tags[j], tags[k])
      {
        BeatsParses(tags[j], tags[k]);
      }
    }
  }

  /** No tag is chosen exactly when none parses; otherwise the first one with the lexicographically
      greatest vector is. */
  lemma PicksLatest(tags: seq<string>)
    ensures PickLatestSemver(tags).None? <==> forall t :: t in tags ==> ParseDottedNumeric(t).None?
    ensures PickLatestSemver(tags).Some? ==>
              exists k: nat :: IsLatest(tags, k) && PickLatestSemver(tags) == Some(tags[k])
  {
    hide Precedes, Beats, ParseDottedNumeric;
    PicksFirstMaximum(tags);
    if PickLatestSemver(tags).Some? {
      var k: nat :| IsFirstMaximum(tags, k) && PickLatestSemver(tags) == Some(tags[k]);
      MaximumIsLatest(tags, k);
    }
  }

  /** There is only one such position. */
  lemma OneLatest(tags: seq<string>, j: nat, k: nat)
    requires IsLatest(tags, j) && IsLatest(tags, k)
    ensures j == k
  {
  }

  /** Permuting the tag list cannot change the chosen version vector. */
  lemma PickPermuted(tags: seq<string>, other: seq<string>)
    requires multiset(tags) == multiset(other)
    ensures PickLatestSemver(tags).Some? <==> PickLatestSemver(other).Some?
    ensures PickLatestSemver(tags).Some? ==>
              ParseDottedNumeric(PickLatestSemver(tags).value) == ParseDottedNumeric(PickLatestSemver(other).value)
  {
    PicksFirstMaximum(tags);
    PicksFirstMaximum(other);
    forall t
      ensures t in tags <==> t in other
    {
      assert t in tags <==> t in multiset(tags);
      assert t in other <==> t in multiset(other);
    }
    if PickLatestSemver(tags).Some? {
      var k: nat :| IsFirstMaximum(tags, k) && PickLatestSemver(tags) == Some(tags[k]);
      var j: nat :| IsFirstMaximum(other, j) && PickLatestSemver(other) == Some(other[j]);
      assert tags[k] in other && other[j] in tags;
      LessTotal(ParseDottedNumeric(tags[k]).value, ParseDottedNumeric(other[j]).value);
    }
  }

  /** The digits of a component: an optional '+' in front does not count. */
  function Unsigned(p: string): string {
    if p != "" && p[0] == '+' then p[1..] else p
  }

  /** Digits after an optional '+', of a value that fits 64 bits. */
  predicate IsComponent(p: string) {
    var d := Unsigned(p);
    d != "" && AllDigits(d) && ValueOf(d) <= 0xffff_ffff_ffff_ffff
  }

  /** A tag parses exactly when each of its dot-separated components is such a number, and its vector
      holds their values in order. */
  lemma ParsesExactly(t: string)
    ensures ParseDottedNumeric(t).Some? <==> forall p :: p in Split(t, '.') ==> IsComponent(p)
    ensures ParseDottedNumeric(t).Some? ==>
              var v, parts := ParseDottedNumeric(t).value, Split(t, '.');
              |v| == |parts| && forall i :: 0 <= i < |parts| ==> IsComponent(parts[i]) && v[i] == ValueOf(Unsigned(parts[i]))
  {
    ComponentsParse(Split(t, '.'));
  }

  lemma ComponentParses(p: string)
    ensures ParseU64(p).Some? <==> IsComponent(p)
    ensures ParseU64(p).Some? ==> ParseU64(p).value == ValueOf(Unsigned(p))
  {
  }

  lemma {:induction false} ComponentsParse(parts: seq<string>)
    ensures ParseComponents(parts).Some? <==> forall p :: p in parts ==> IsComponent(p)
    ensures ParseComponents(parts).Some? ==>
              var v := ParseComponents(parts).value;
              |v| == |parts| && forall i :: 0 <= i < |parts| ==> IsComponent(parts[i]) && v[i] == ValueOf(Unsigned(parts[i]))
  {
    if parts != [] {
      ComponentParses(parts[0]);
      hide ParseU64, Unsigned;
      ComponentsParse(parts[1..]);
      assert forall p :: p in parts ==> p == parts[0] || p in parts[1..];
      assert forall p :: p in parts[1..] ==> p in parts;
    }
  }
}
