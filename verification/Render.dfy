// Rendering a compose template with a list of pins.
module Render {
  import opened Wrappers
  import opened Text
  import opened Sequences
  import opened Validators
  import opened State
  import opened Compose
  import opened PinOrder

  lemma KeyIsBytes(k: Key)
    requires IsKey(k)
    ensures IsBytes(Search(k) + Mark(k))
  {
    var t := Search(k) + Mark(k);
    assert k.digest == k.digest[..7] + k.digest[7..];
    forall i | 0 <= i < |t|
      ensures t[i] as int < 256
    {
      assert t[i] in t;
      assert t[i] in IMAGE || t[i] in k.repo || t[i] == ':' || t[i] in k.tag || t[i] == '@' || t[i] in k.digest;
    }
  }

  function InsertBytes(out: Bytes, k: Key): Bytes
    requires IsKey(k)
  {
    KeyIsBytes(k);
    Insert(out, k)
  }

  function RenderFrom(out: Bytes, pins: seq<ImagePin>, seen: set<Key>): Result<Bytes>
    decreases |pins|
  {
    if pins == [] then Ok(out)
    else
      var k := KeyOf(pins[0]);
      if k in seen then RenderFrom(out, pins[1..], seen)
      else
        match PinnedImageRef(k.repo, k.tag, k.digest)
        case Err(e) => Err(e)
        case Ok(_) => RenderFrom(InsertBytes(out, k), pins[1..], seen + {k})
  }

  /** The template with every pin applied once, or the first invalid pin. */
  function RenderPins(template: Bytes, pins: seq<ImagePin>): Result<Bytes> {
    RenderFrom(template, pins, {})
  }

  method RenderComposeWithPins(template: Bytes, pins: seq<ImagePin>) returns (r: Result<Bytes>)
    ensures r == RenderPins(template, pins)
  {
    var out: Bytes, seen := template, {};
    var i := 0;
    while i < |pins|
      invariant 0 <= i <= |pins|
      invariant RenderPins(template, pins) == RenderFrom(out, pins[i..], seen)
    {
      var key := KeyOf(pins[i]);
      assert pins[i..][1..] == pins[i + 1..];
      if key !in seen {
        seen := seen + {key};
        var reference := PinnedImageRef(key.repo, key.tag, key.digest);
        if reference.Err? {
          return Err(reference.error);
        }
        SearchShape(key);
        KeyIsBytes(key);
        out := ReplaceAll(out, Search(key), IMAGE + reference.value);
      }
      i := i + 1;
    }
    return Ok(out);
  }

  predicate AllValid(pins: seq<ImagePin>) {
    forall p :: p in pins ==> IsKey(KeyOf(p))
  }

  function Keys(pins: seq<ImagePin>): set<Key> {
    set p | p in pins :: KeyOf(p)
  }

  /** The keys in order of first appearance. */
  function Distinct(pins: seq<ImagePin>, seen: set<Key>): seq<Key>
    decreases |pins|
  {
    if pins == [] then []
    else
      var k := KeyOf(pins[0]);
      if k in seen then Distinct(pins[1..], seen) else [k] + Distinct(pins[1..], seen + {k})
  }

  lemma {:induction false} RenderFromInserts(out: Bytes, pins: seq<ImagePin>, seen: set<Key>)
    requires forall k :: k in seen ==> IsKey(k)
    ensures RenderFrom(out, pins, seen).Ok? <==> AllValid(pins)
    ensures AllValid(pins) ==> RenderFrom(out, pins, seen).value == InsertAll(out, Distinct(pins, seen))
    decreases |pins|
  {
    hide IsKey, Insert;
    if pins != [] {
      var k := KeyOf(pins[0]);
      assert AllValid(pins) <==> IsKey(k) && AllValid(pins[1..]) by {
        assert pins == [pins[0]] + pins[1..];
      }
      ImageRefRoundTrip(k.repo, k.tag, k.digest);
      if k in seen {
        RenderFromInserts(out, pins[1..], seen);
      } else if PinnedImageRef(k.repo, k.tag, k.digest).Ok? {
        var next := Distinct(pins[1..], seen + {k});
        KeyMeansValid(k);
        RenderFromInserts(InsertBytes(out, k), pins[1..], seen + {k});
        assert ([k] + next)[1..] == next;
      } else {
        KeyMeansValid(k);
      }
    }
  }

  lemma KeyMeansValid(k: Key)
    ensures IsKey(k) <==> PinnedImageRef(k.repo, k.tag, k.digest).Ok?
  {
  }

  /** Rendering fails exactly on an invalid pin, and otherwise applies each distinct pin once. */
  lemma RenderInserts(template: Bytes, pins: seq<ImagePin>)
    ensures RenderPins(template, pins).Ok? <==> AllValid(pins)
    ensures AllValid(pins) ==> RenderPins(template, pins).value == InsertAll(template, Distinct(pins, {}))
  {
    RenderFromInserts(template, pins, {});
  }

  // ---------------------------------------------------------------------------
  // Rendering in any order
  // ---------------------------------------------------------------------------

  predicate Compatible(k: Key, j: Key) {
    IsKey(k) && IsKey(j) && (k == j || OrderFree(k, j))
  }

  predicate AllCompatible(ks: seq<Key>) {
    forall k, j :: k in ks && j in ks ==> Compatible(k, j)
  }

  lemma StillCompatible(ks: seq<Key>, js: seq<Key>)
    requires AllCompatible(ks) && forall k :: k in js ==> k in ks
    ensures AllCompatible(js)
  {
    hide Compatible;
  }

  lemma InsertFirst(t: string, ks: seq<Key>)
    requires ks != []
    ensures InsertAll(t, ks) == InsertAll(Insert(t, ks[0]), ks[1..])
  {
    hide Insert;
  }

  lemma {:induction false} BringToFront(t: string, ks: seq<Key>, i: nat)
    requires AllCompatible(ks) && i < |ks|
    ensures InsertAll(t, ks) == InsertAll(t, [ks[i]] + Without(ks, i))
    decreases i
  {
    hide Compatible, Insert, InsertAll, Without, AllCompatible;
    if i == 0 {
      WithoutFirst(ks);
    } else {
      var k, rest := ks[i], Without(ks[1..], i - 1);
      WithoutLater(ks, i);
      StillCompatible(ks, ks[1..]);
      BringToFront(Insert(t, ks[0]), ks[1..], i - 1);
      InsertFirst(t, ks);
      CompatibleCommute(ks, ks[0], k, t);
      InsertTwo(t, ks[0], k, rest);
      InsertTwo(t, k, ks[0], rest);
      InsertFirst(t, [ks[0]] + ([k] + rest));
      assert ([ks[0]] + ([k] + rest))[1..] == [k] + rest;
    }
  }

  lemma CompatibleCommute(ks: seq<Key>, k: Key, j: Key, t: string)
    requires AllCompatible(ks) && k in ks && j in ks
    ensures Insert(Insert(t, k), j) == Insert(Insert(t, j), k)
  {
    hide OrderFree, Insert;
    assert Compatible(k, j);
    if k != j {
      OrderFreeCommutes(k, j, t);
    }
  }

  lemma InsertTwo(t: string, k: Key, j: Key, rest: seq<Key>)
    ensures InsertAll(t, [k] + ([j] + rest)) == InsertAll(Insert(Insert(t, k), j), rest)
  {
    hide Insert;
    assert ([k] + ([j] + rest))[1..] == [j] + rest && ([j] + rest)[1..] == rest;
  }

  lemma {:induction false} InsertAllPermuted(t: string, ks: seq<Key>, js: seq<Key>)
    requires AllCompatible(ks) && multiset(ks) == multiset(js)
    ensures InsertAll(t, ks) == InsertAll(t, js)
    decreases |ks|
  {
    hide Compatible, Insert, InsertAll, Without, AllCompatible;
    PermutedContains(ks, js);
    if ks == [] {
      assert js == [];
    } else {
      assert ks[0] in js;
      var i :| 0 <= i < |js| && js[i] == ks[0];
      var rest := Without(js, i);
      RemoveOne(js, i);
      RemoveOne(ks, 0);
      WithoutFirst(ks);
      StillCompatible(ks, js);
      StillCompatible(ks, ks[1..]);
      BringToFront(t, js, i);
      InsertFirst(t, ks);
      InsertFirst(t, [ks[0]] + rest);
      assert ([ks[0]] + rest)[1..] == rest;
      InsertAllPermuted(Insert(t, ks[0]), ks[1..], rest);
    }
  }

  lemma {:induction false} DistinctFacts(pins: seq<ImagePin>, seen: set<Key>)
    ensures var ks := Distinct(pins, seen);
            && NoRepeats(ks)
            && (forall k :: k in ks <==> k in Keys(pins) && k !in seen)
    decreases |pins|
  {
    if pins != [] {
      var k := KeyOf(pins[0]);
      assert pins == [pins[0]] + pins[1..];
      DistinctFacts(pins[1..], if k in seen then seen else seen + {k});
      if k !in seen {
        var rest := Distinct(pins[1..], seen + {k});
        assert Distinct(pins, seen) == [k] + rest;
      }
    }
  }

  predicate PinsCompatible(pins: seq<ImagePin>) {
    forall p, q :: p in pins && q in pins ==> Compatible(KeyOf(p), KeyOf(q))
  }

  /** The order of the pins, and how often one is repeated, does not matter to the result. */
  lemma RenderPermuted(template: Bytes, pins: seq<ImagePin>, other: seq<ImagePin>)
    requires PinsCompatible(pins) && Keys(pins) == Keys(other)
    ensures RenderPins(template, pins) == RenderPins(template, other)
  {
    hide Compatible;
    var ks, js := Distinct(pins, {}), Distinct(other, {});
    DistinctFacts(pins, {});
    DistinctFacts(other, {});
    SameElements(ks, js);
    CompatibleKeys(pins);
    forall q | q in other
      ensures IsKey(KeyOf(q))
    {
      assert KeyOf(q) in Keys(pins);
      CompatibleValid(pins);
    }
    CompatibleValid(pins);
    RenderInserts(template, pins);
    RenderInserts(template, other);
    InsertAllPermuted(template, ks, js);
  }

  lemma CompatibleValid(pins: seq<ImagePin>)
    requires PinsCompatible(pins)
    ensures AllValid(pins)
  {
    forall p | p in pins
      ensures IsKey(KeyOf(p))
    {
      assert Compatible(KeyOf(p), KeyOf(p));
    }
  }

  lemma CompatibleKeys(pins: seq<ImagePin>)
    requires PinsCompatible(pins)
    ensures AllCompatible(Distinct(pins, {}))
  {
    hide Compatible;
    DistinctFacts(pins, {});
  }

  lemma {:induction false} InsertAllLast(t: string, ks: seq<Key>, k: Key)
    ensures InsertAll(t, ks + [k]) == Insert(InsertAll(t, ks), k)
    decreases |ks|
  {
    hide Insert;
    if ks == [] {
      assert ks + [k] == [k] && [k][1..] == [];
    } else {
      assert (ks + [k])[1..] == ks[1..] + [k];
      InsertAllLast(Insert(t, ks[0]), ks[1..], k);
    }
  }

  /** After rendering compatible pins no reference to a pinned image is left without its digest. */
  lemma RenderPinsEverything(template: Bytes, pins: seq<ImagePin>, p: ImagePin)
    requires PinsCompatible(pins) && p in pins
    ensures RenderPins(template, pins).Ok?
    ensures FullyMarked(RenderPins(template, pins).value, Search(KeyOf(p)), Mark(KeyOf(p)))
  {
    CompatibleValid(pins);
    RenderInserts(template, pins);
    CompatibleKeys(pins);
    DistinctFacts(pins, {});
    assert KeyOf(p) in Keys(pins);
    InsertAllMarks(template, Distinct(pins, {}), KeyOf(p));
  }

  lemma InsertAllMarks(t: string, ks: seq<Key>, k: Key)
    requires AllCompatible(ks) && k in ks && IsKey(k)
    ensures FullyMarked(InsertAll(t, ks), Search(k), Mark(k))
  {
    hide Compatible, FullyMarked, IsKey, Insert;
    var i :| 0 <= i < |ks| && ks[i] == k;
    var rest := Without(ks, i);
    RemoveOne(ks, i);
    assert multiset(rest + [k]) == multiset([k] + rest);
    InsertAllPermuted(t, ks, rest + [k]);
    InsertAllLast(t, rest, k);
    MarksLast(InsertAll(t, rest), k);
  }

  lemma MarksLast(t: string, k: Key)
    requires IsKey(k)
    ensures FullyMarked(Insert(t, k), Search(k), Mark(k))
  {
    hide IsKey;
    SearchShape(k);
    InsertMarksAll(t, Search(k), Mark(k));
  }

  lemma {:induction false} InsertAllGrows(t: string, ks: seq<Key>)
    ensures |InsertAll(t, ks)| >= |t|
    ensures InsertAll(t, ks) == t <==> forall k :: k in ks ==> Matches(t, Search(k)) == 0
    decreases |ks|
  {
    hide Search;
    if ks != [] {
      var k, next := ks[0], Insert(t, ks[0]);
      InsertAllGrows(next, ks[1..]);
      MatchesGrow(t, Search(k), Mark(k));
      assert ks == [k] + ks[1..];
      if Matches(t, Search(k)) == 0 {
        NoMatchNoChange(t, Search(k), Search(k) + Mark(k));
      }
    }
  }

  /** Rendering leaves a template unchanged exactly when it mentions none of the pinned tags. */
  lemma RenderOtherTag(template: Bytes, pins: seq<ImagePin>)
    requires AllValid(pins)
    ensures RenderPins(template, pins) == Ok(template) <==>
            forall p :: p in pins ==> Matches(template, Search(KeyOf(p))) == 0
  {
    hide Search, IsKey;
    RenderInserts(template, pins);
    DistinctFacts(pins, {});
    InsertAllGrows(template, Distinct(pins, {}));
    forall p | p in pins
      ensures KeyOf(p) in Distinct(pins, {})
    {
      assert KeyOf(p) in Keys(pins);
    }
  }

  lemma {:induction false} NoMatchNoChange(t: string, s: string, r: string)
    requires s != "" && Matches(t, s) == 0
    ensures ReplaceAll(t, s, r) == t
    decreases |t|
  {
    if t != "" {
      NoMatchNoChange(t[1..], s, r);
    }
  }
}
