// The TTL cache in front of the registry. The cache lock is released while a request is on the
// wire, so calls interleave: a call reads the clock, looks in the cache, waits for the registry and
// writes the answer back, and other calls may take any of their steps in between.
module RegistryCache {
  import opened Wrappers

  // ---------------------------------------------------------------------------
  // Entries and keys
  // ---------------------------------------------------------------------------

  /** Times are nanoseconds. The largest TTL that chrono can represent: i64::MAX milliseconds. */
  const MAX_TTL := 9223372036854775807 * 1000000

  predicate IsFresh(cachedAt: int, ttl: nat, now: int) {
    ttl > MAX_TTL || now - cachedAt < ttl
  }

  function DigestKey(repo: string, tag: string): string {
    repo + ":" + tag
  }

  ghost predicate IsUniqueKey(repo: string, tag: string) {
    forall r, t :: DigestKey(r, t) == DigestKey(repo, tag) ==> r == repo && t == tag
  }

  /** The colon that joins a key is its only one exactly when neither part has one. */
  lemma ColonFreeKeys(repo: string, tag: string)
    ensures IsUniqueKey(repo, tag) <==> ':' !in repo && ':' !in tag
  {
    var key := DigestKey(repo, tag);
    assert key[|repo|] == ':' && key[..|repo|] == repo && key[|repo| + 1..] == tag;
    if ':' in repo {
      var k :| 0 <= k < |repo| && repo[k] == ':';
      assert key[k] == ':' && DigestKey(key[..k], key[k + 1..]) == key;
      assert |key[..k]| != |repo|;
    } else if ':' in tag {
      var k :| 0 <= k < |tag| && tag[k] == ':';
      var j := |repo| + 1 + k;
      assert key[j] == ':' && DigestKey(key[..j], key[j + 1..]) == key;
      assert |key[..j]| != |repo|;
    } else {
      forall r, t | DigestKey(r, t) == key
        ensures r == repo && t == tag
      {
        OnlyColon(repo, tag, r, t);
      }
    }
  }

  lemma OnlyColon(repo: string, tag: string, r: string, t: string)
    requires ':' !in repo && ':' !in tag && DigestKey(r, t) == DigestKey(repo, tag)
    ensures r == repo && t == tag
  {
    var key, other := DigestKey(repo, tag), DigestKey(r, t);
    assert forall k :: 0 <= k < |repo| ==> key[k] == repo[k];
    assert forall k :: 0 <= k < |tag| ==> key[|repo| + 1 + k] == tag[k];
    assert forall k :: |repo| < k < |key| ==> key[k] == tag[k - |repo| - 1];
    assert other[|r|] == ':' && other[..|r|] == r && other[|r| + 1..] == t;
    assert key[..|repo|] == repo && key[|repo| + 1..] == tag;
  }

  /** Two image references that share a key: the second caller is served the first one's digest. */
  lemma KeysCollide()
    ensures DigestKey("registry:5000/app", "1.0") == DigestKey("registry", "5000/app:1.0")
  {
    assert "registry:5000/app" + ":" + "1.0" == "registry" + ":" + "5000/app:1.0";
  }

  datatype TagsEntry = TagsEntry(cachedAt: int, tags: seq<string>)

  datatype DigestEntry = DigestEntry(cachedAt: int, digest: string)

  datatype Store = Store(tags: map<string, TagsEntry>, digests: map<string, DigestEntry>)

  datatype Query = TagsOf(repo: string) | DigestOf(repo: string, tag: string)

  datatype Answer = Tags(tags: seq<string>) | Digest(digest: string)

  predicate Fits(q: Query, a: Answer) {
    q.TagsOf? <==> a.Tags?
  }

  datatype Key = TagsKey(repo: string) | DigestsKey(text: string)

  function KeyOf(q: Query): Key {
    match q
    case TagsOf(repo) => TagsKey(repo)
    case DigestOf(repo, tag) => DigestsKey(DigestKey(repo, tag))
  }

  datatype Entry = Entry(cachedAt: int, answer: Answer)

  function EntryAt(s: Store, k: Key): Option<Entry> {
    match k
    case TagsKey(repo) =>
      if repo in s.tags then Some(Entry(s.tags[repo].cachedAt, Tags(s.tags[repo].tags))) else None
    case DigestsKey(text) =>
      if text in s.digests then Some(Entry(s.digests[text].cachedAt, Digest(s.digests[text].digest))) else None
  }

  function Lookup(s: Store, q: Query, ttl: nat, now: int): Option<Answer> {
    var e := EntryAt(s, KeyOf(q));
    if e.Some? && IsFresh(e.value.cachedAt, ttl, now) then Some(e.value.answer) else None
  }

  function Put(s: Store, q: Query, a: Answer, at: int): Store
    requires Fits(q, a)
  {
    match q
    case TagsOf(repo) => s.(tags := s.tags[repo := TagsEntry(at, a.tags)])
    case DigestOf(repo, tag) => s.(digests := s.digests[DigestKey(repo, tag) := DigestEntry(at, a.digest)])
  }

  /** A lookup hits exactly if its key is there and the TTL is too long for chrono or not yet over, and
      then returns what is there. */
  lemma LookupHits(s: Store, q: Query, ttl: nat, now: int)
    ensures var e, hit := EntryAt(s, KeyOf(q)), Lookup(s, q, ttl, now);
            && (hit.Some? <==> e.Some? && (ttl > 9223372036854775807 * 1000000 || now - e.value.cachedAt < ttl))
            && (hit.Some? ==> hit.value == e.value.answer)
  {
  }

  /** The entry of a query: tags under the repository's name, a digest under "repo:tag". */
  lemma EntrySpelled(s: Store, repo: string, tag: string)
    ensures EntryAt(s, KeyOf(TagsOf(repo))) ==
            if repo in s.tags then Some(Entry(s.tags[repo].cachedAt, Tags(s.tags[repo].tags))) else None
    ensures var key := repo + ":" + tag;
            EntryAt(s, KeyOf(DigestOf(repo, tag))) ==
            if key in s.digests then Some(Entry(s.digests[key].cachedAt, Digest(s.digests[key].digest))) else None
  {
  }

  /** A write is what every later lookup of its key sees, and no other key notices it. */
  lemma PutThenLookup(s: Store, q: Query, a: Answer, at: int, other: Query, ttl: nat, now: int)
    requires Fits(q, a)
    ensures Lookup(Put(s, q, a, at), other, ttl, now) ==
            if KeyOf(other) != KeyOf(q) then Lookup(s, other, ttl, now)
            else if IsFresh(at, ttl, now) then Some(a) else None
  {
    PutEntry(s, q, a, at, KeyOf(other));
  }

  lemma PutEntry(s: Store, q: Query, a: Answer, at: int, k: Key)
    requires Fits(q, a)
    ensures EntryAt(Put(s, q, a, at), k) == if k == KeyOf(q) then Some(Entry(at, a)) else EntryAt(s, k)
  {
  }

  // ---------------------------------------------------------------------------
  // The interleaved calls
  // ---------------------------------------------------------------------------

  datatype Phase =
    | Reading
    | Asking(began: int)
    | Holding(answer: Answer, began: int)
    | FromCache(answer: Answer)
    | Fetched(answer: Answer)
    | Failed

  /** A call in flight: its query, its one clock reading, and how far it got. */
  datatype Call = Call(query: Query, stamp: int, phase: Phase)

  /** An answer of the registry: what was asked, the clock reading of the call that asked, and the
      time its request began. */
  datatype Fetch = Fetch(query: Query, answer: Answer, stamp: int, began: int)

  datatype System = System(store: Store, clock: int, calls: map<nat, Call>, log: set<Fetch>)

  datatype Action =
    | Tick(to: int)
    | Start(id: nat, query: Query)
    | Look(id: nat)
    | Receive(id: nat, answer: Answer)
    | Fail(id: nat)
    | Write(id: nat, saved: bool)

  /** One step of the clock, the registry or one call. An action that the call it names cannot take
      changes nothing. */
  function Act(ttl: nat, s: System, a: Action): System {
    if a.Tick? then s.(clock := a.to)
    else if a.Start? then
      if a.id in s.calls then s else s.(calls := s.calls[a.id := Call(a.query, s.clock, Reading)])
    else if a.id !in s.calls then s
    else
      var c := s.calls[a.id];
      match a
      case Look(id) =>
        if !c.phase.Reading? then s
        else
          var hit := Lookup(s.store, c.query, ttl, c.stamp);
          s.(calls := s.calls[id := c.(phase := if hit.Some? then FromCache(hit.value) else Asking(s.clock))])
      case Receive(id, answer) =>
        if !c.phase.Asking? || !Fits(c.query, answer) then s
        else
          s.(calls := s.calls[id := c.(phase := Holding(answer, c.phase.began))],
             log := s.log + {Fetch(c.query, answer, c.stamp, c.phase.began)})
      case Fail(id) =>
        if !c.phase.Asking? then s else s.(calls := s.calls[id := c.(phase := Failed)])
      case Write(id, saved) =>
        if !c.phase.Holding? || !Fits(c.query, c.phase.answer) then s
        else
          s.(store := Put(s.store, c.query, c.phase.answer, c.stamp),
             calls := s.calls[id := c.(phase := if saved then Fetched(c.phase.answer) else Failed)])
      case _ => s
  }

  function Run(ttl: nat, s: System, actions: seq<Action>): System
    decreases |actions|
  {
    if actions == [] then s else Run(ttl, Act(ttl, s, actions[0]), actions[1..])
  }

  // ---------------------------------------------------------------------------
  // What every interleaving keeps
  // ---------------------------------------------------------------------------

  predicate Supports(f: Fetch, k: Key, e: Entry) {
    KeyOf(f.query) == k && f.answer == e.answer && f.stamp == e.cachedAt
  }

  ghost predicate EntriesFetched(store: Store, log: set<Fetch>) {
    forall k :: EntryAt(store, k).Some? ==> exists f :: f in log && Supports(f, k, EntryAt(store, k).value)
  }

  /** What a call knows is in the log; an answer taken from the cache was fresh at the call's own
      clock reading. */
  ghost predicate CallExplained(c: Call, ttl: nat, log: set<Fetch>) {
    match c.phase
    case Holding(answer, began) => Fits(c.query, answer) && Fetch(c.query, answer, c.stamp, began) in log
    case Fetched(answer) => exists f :: f in log && f.query == c.query && f.answer == answer && f.stamp == c.stamp
    case FromCache(answer) =>
      exists f :: f in log && Supports(f, KeyOf(c.query), Entry(f.stamp, answer)) && IsFresh(f.stamp, ttl, c.stamp)
    case _ => true
  }

  ghost predicate Explained(ttl: nat, s: System) {
    && EntriesFetched(s.store, s.log)
    && forall id :: id in s.calls ==> CallExplained(s.calls[id], ttl, s.log)
  }

  lemma CallStaysExplained(c: Call, ttl: nat, log: set<Fetch>, f: Fetch)
    requires CallExplained(c, ttl, log)
    ensures CallExplained(c, ttl, log + {f})
  {
  }

  lemma LookExplained(ttl: nat, s: System, id: nat)
    requires Explained(ttl, s) && id in s.calls
    ensures Explained(ttl, Act(ttl, s, Look(id)))
  {
    hide KeyOf, EntryAt, IsFresh;
    var c := s.calls[id];
    var t := Act(ttl, s, Look(id));
    if c.phase.Reading? {
      var e := EntryAt(s.store, KeyOf(c.query));
      if t.calls[id].phase.FromCache? {
        var f :| f in s.log && Supports(f, KeyOf(c.query), e.value);
        assert Supports(f, KeyOf(c.query), Entry(f.stamp, e.value.answer));
      }
      assert CallExplained(t.calls[id], ttl, t.log);
    }
  }

  lemma ReceiveExplained(ttl: nat, s: System, id: nat, answer: Answer)
    requires Explained(ttl, s) && id in s.calls
    ensures Explained(ttl, Act(ttl, s, Receive(id, answer)))
  {
    hide KeyOf, EntryAt, Supports, Fits;
    var c := s.calls[id];
    var t := Act(ttl, s, Receive(id, answer));
    if t != s {
      var f := Fetch(c.query, answer, c.stamp, c.phase.began);
      assert t.log == s.log + {f};
      forall j | j in t.calls
        ensures CallExplained(t.calls[j], ttl, t.log)
      {
        if j != id {
          CallStaysExplained(s.calls[j], ttl, s.log, f);
        }
      }
      assert EntriesFetched(s.store, t.log);
    }
  }

  lemma WriteExplained(ttl: nat, s: System, id: nat, saved: bool)
    requires Explained(ttl, s) && id in s.calls
    ensures Explained(ttl, Act(ttl, s, Write(id, saved)))
  {
    hide KeyOf, EntryAt, Put, Fits;
    var c := s.calls[id];
    var t := Act(ttl, s, Write(id, saved));
    if t != s {
      var f := Fetch(c.query, c.phase.answer, c.stamp, c.phase.began);
      assert CallExplained(c, ttl, s.log);
      assert f in s.log;
      forall k | EntryAt(t.store, k).Some?
        ensures exists g :: g in t.log && Supports(g, k, EntryAt(t.store, k).value)
      {
        PutEntry(s.store, c.query, c.phase.answer, c.stamp, k);
        if k == KeyOf(c.query) {
          assert Supports(f, k, EntryAt(t.store, k).value);
        }
      }
      assert CallExplained(t.calls[id], ttl, t.log);
    }
  }

  lemma ActExplained(ttl: nat, s: System, a: Action)
    requires Explained(ttl, s)
    ensures Explained(ttl, Act(ttl, s, a))
  {
    hide EntriesFetched;
    if !a.Tick? && !a.Start? && a.id in s.calls {
      if a.Look? {
        LookExplained(ttl, s, a.id);
      } else if a.Receive? {
        ReceiveExplained(ttl, s, a.id, a.answer);
      } else if a.Write? {
        WriteExplained(ttl, s, a.id, a.saved);
      }
    }
  }

  /** In every interleaving, under any clock, each cache entry holds an answer the registry gave for
      the entry's own key, stamped with the clock reading of the call that asked; and every answer
      returned from the cache was such an entry, fresh by the caller's reading. */
  lemma {:induction false} EveryRunExplained(ttl: nat, s: System, actions: seq<Action>)
    requires Explained(ttl, s)
    ensures Explained(ttl, Run(ttl, s, actions))
    decreases |actions|
  {
    if actions != [] {
      ActExplained(ttl, s, actions[0]);
      EveryRunExplained(ttl, Act(ttl, s, actions[0]), actions[1..]);
    }
  }

  // ---------------------------------------------------------------------------
  // A clock that does not go back
  // ---------------------------------------------------------------------------

  predicate IsMonotone(clock: int, actions: seq<Action>)
    decreases |actions|
  {
    actions == [] ||
    if actions[0].Tick? then clock <= actions[0].to && IsMonotone(actions[0].to, actions[1..])
    else IsMonotone(clock, actions[1..])
  }

  predicate CallInOrder(c: Call, clock: int) {
    && c.stamp <= clock
    && (c.phase.Asking? || c.phase.Holding? ==> c.stamp <= c.phase.began <= clock)
  }

  predicate InOrder(s: System) {
    && (forall f :: f in s.log ==> f.stamp <= f.began <= s.clock)
    && forall id :: id in s.calls ==> CallInOrder(s.calls[id], s.clock)
  }

  lemma ActInOrder(ttl: nat, s: System, a: Action)
    requires InOrder(s) && (a.Tick? ==> s.clock <= a.to)
    ensures InOrder(Act(ttl, s, a))
  {
    hide Lookup, Put, Fits;
    var t := Act(ttl, s, a);
    forall id | id in t.calls
      ensures CallInOrder(t.calls[id], t.clock)
    {
      if id in s.calls {
        assert CallInOrder(s.calls[id], s.clock);
      }
    }
  }

  lemma {:induction false} EveryRunInOrder(ttl: nat, s: System, actions: seq<Action>)
    requires InOrder(s) && IsMonotone(s.clock, actions)
    ensures InOrder(Run(ttl, s, actions))
    decreases |actions|
  {
    hide Act;
    if actions != [] {
      var t := Act(ttl, s, actions[0]);
      ActInOrder(ttl, s, actions[0]);
      ClockOf(ttl, s, actions[0]);
      EveryRunInOrder(ttl, t, actions[1..]);
    }
  }

  lemma ClockOf(ttl: nat, s: System, a: Action)
    ensures Act(ttl, s, a).clock == if a.Tick? then a.to else s.clock
  {
  }

  /** Each entry was fetched no earlier than its time stamp. */
  lemma EntriesNotBackdated(ttl: nat, s: System, actions: seq<Action>, k: Key)
    requires Explained(ttl, s) && InOrder(s) && IsMonotone(s.clock, actions)
    requires EntryAt(Run(ttl, s, actions).store, k).Some?
    ensures var t := Run(ttl, s, actions);
            var e := EntryAt(t.store, k).value;
            exists f :: f in t.log && KeyOf(f.query) == k && f.answer == e.answer && e.cachedAt <= f.began
  {
    hide Run, EntryAt, KeyOf;
    EveryRunExplained(ttl, s, actions);
    EveryRunInOrder(ttl, s, actions);
    var t := Run(ttl, s, actions);
    var f :| f in t.log && Supports(f, k, EntryAt(t.store, k).value);
  }

  /** A cache hit is an answer whose request began less than the TTL before the caller read the
      clock, whatever slow calls overwrote in the meantime; for a repository and tag without ':' it
      is the registry's answer for that repository and tag. */
  lemma HitsAreRecent(ttl: nat, s: System, actions: seq<Action>, id: nat)
    requires Explained(ttl, s) && InOrder(s) && IsMonotone(s.clock, actions) && ttl <= MAX_TTL
    requires var t := Run(ttl, s, actions); id in t.calls && t.calls[id].phase.FromCache?
    ensures var t := Run(ttl, s, actions);
            var c := t.calls[id];
            exists f :: f in t.log && f.answer == c.phase.answer && c.stamp - f.began < ttl && KeyOf(f.query) == KeyOf(c.query)
                        && (c.query.TagsOf? || (':' !in c.query.repo && ':' !in c.query.tag) ==> f.query == c.query)
  {
    hide Run;
    EveryRunExplained(ttl, s, actions);
    EveryRunInOrder(ttl, s, actions);
    var t := Run(ttl, s, actions);
    var c := t.calls[id];
    assert CallExplained(c, ttl, t.log);
    var f :| f in t.log && Supports(f, KeyOf(c.query), Entry(f.stamp, c.phase.answer)) && IsFresh(f.stamp, ttl, c.stamp);
    if c.query.TagsOf? || (':' !in c.query.repo && ':' !in c.query.tag) {
      SameKey(c.query, f.query);
    }
  }

  lemma SameKey(q: Query, p: Query)
    requires KeyOf(p) == KeyOf(q) && (q.TagsOf? || (':' !in q.repo && ':' !in q.tag))
    ensures p == q
  {
    if q.DigestOf? {
      ColonFreeKeys(q.repo, q.tag);
    }
  }

  /** The first of two overlapping calls waits while the second one asks, answers and writes. */
  lemma QuickCallFirst(ttl: nat, q: Query, quick: Answer, t0: int, t1: int)
    requires Fits(q, quick)
    ensures var s := Run(ttl, System(Store(map[], map[]), t0, map[], {}),
                         [Start(0, q), Look(0), Tick(t1), Start(1, q), Look(1), Receive(1, quick), Write(1, true)]);
            && s.store == Put(Store(map[], map[]), q, quick, t1)
            && 0 in s.calls && s.calls[0] == Call(q, t0, Asking(t0))
  {
    hide Put, EntryAt, Fits, Run;
    var empty := Store(map[], map[]);
    var s := System(empty, t0, map[], {});
    NothingCached(q);
    var rest4 := [Look(1), Receive(1, quick), Write(1, true)];
    var rest2 := [Tick(t1), Start(1, q), Look(1), Receive(1, quick), Write(1, true)];
    RunTwo(ttl, s, Start(0, q), Look(0), rest2);
    var s2 := Act(ttl, Act(ttl, s, Start(0, q)), Look(0));
    assert s2 == System(empty, t0, map[0 := Call(q, t0, Asking(t0))], {});
    RunTwo(ttl, s2, Tick(t1), Start(1, q), rest4);
    var s4 := Act(ttl, Act(ttl, s2, Tick(t1)), Start(1, q));
    assert [Start(0, q), Look(0)] + rest2 ==
           [Start(0, q), Look(0), Tick(t1), Start(1, q), Look(1), Receive(1, quick), Write(1, true)];
    assert [Tick(t1), Start(1, q)] + rest4 == rest2;
    SecondCall(ttl, s4, q, quick);
  }

  lemma SecondCall(ttl: nat, s: System, q: Query, quick: Answer)
    requires Fits(q, quick) && 1 in s.calls && s.calls[1] == Call(q, s.clock, Reading)
    requires EntryAt(s.store, KeyOf(q)) == None && 0 in s.calls
    ensures var t := Run(ttl, s, [Look(1), Receive(1, quick), Write(1, true)]);
            t.store == Put(s.store, q, quick, s.clock) && 0 in t.calls && t.calls[0] == s.calls[0]
  {
    hide Put, EntryAt, Fits, Run;
    RunTwo(ttl, s, Look(1), Receive(1, quick), [Write(1, true)]);
    var s2 := Act(ttl, Act(ttl, s, Look(1)), Receive(1, quick));
    assert [Look(1), Receive(1, quick)] + [Write(1, true)] == [Look(1), Receive(1, quick), Write(1, true)];
    RunOne(ttl, s2, Write(1, true));
  }

  /** A slow call does put an older stamp over a newer one: the second of two overlapping calls
      answers first, and the entry's time goes back when the first one writes. */
  lemma SlowCallOverwrites(ttl: nat, q: Query, slow: Answer, quick: Answer, t0: int, t1: int)
    requires Fits(q, slow) && Fits(q, quick) && t0 < t1
    ensures var before := Run(ttl, System(Store(map[], map[]), t0, map[], {}),
                              [Start(0, q), Look(0), Tick(t1), Start(1, q), Look(1), Receive(1, quick), Write(1, true)]);
            var after := Run(ttl, before, [Receive(0, slow), Write(0, true)]);
            && EntryAt(before.store, KeyOf(q)) == Some(Entry(t1, quick))
            && EntryAt(after.store, KeyOf(q)) == Some(Entry(t0, slow))
  {
    hide Put, EntryAt, Fits, Run;
    var before := Run(ttl, System(Store(map[], map[]), t0, map[], {}),
                      [Start(0, q), Look(0), Tick(t1), Start(1, q), Look(1), Receive(1, quick), Write(1, true)]);
    QuickCallFirst(ttl, q, quick, t0, t1);
    PutEntry(Store(map[], map[]), q, quick, t1, KeyOf(q));
    assert [Receive(0, slow), Write(0, true)] == [Receive(0, slow), Write(0, true)] + [];
    RunTwo(ttl, before, Receive(0, slow), Write(0, true), []);
    RunNone(ttl, Act(ttl, Act(ttl, before, Receive(0, slow)), Write(0, true)));
    PutEntry(before.store, q, slow, t0, KeyOf(q));
  }

  lemma RunNone(ttl: nat, s: System)
    ensures Run(ttl, s, []) == s
  {
  }

  lemma RunOne(ttl: nat, s: System, a: Action)
    ensures Run(ttl, s, [a]) == Act(ttl, s, a)
  {
    hide Act;
    assert [a][1..] == [];
  }

  lemma NothingCached(q: Query)
    ensures EntryAt(Store(map[], map[]), KeyOf(q)) == None
  {
  }

  lemma RunTwo(ttl: nat, s: System, a: Action, b: Action, rest: seq<Action>)
    ensures Run(ttl, s, [a, b] + rest) == Run(ttl, Act(ttl, Act(ttl, s, a), b), rest)
  {
    hide Act;
    var actions := [a, b] + rest;
    assert actions[0] == a && actions[1..][0] == b && actions[1..][1..] == rest;
  }

  // ---------------------------------------------------------------------------
  // Fresh entries are served
  // ---------------------------------------------------------------------------

  /** An action that does not let call `id` look, and a run of such actions. */
  predicate LeavesReading(a: Action, id: nat) {
    !(a.Look? && a.id == id)
  }

  lemma {:induction false} StaysReading(ttl: nat, s: System, actions: seq<Action>, id: nat)
    requires id in s.calls && s.calls[id].phase.Reading? && forall a :: a in actions ==> LeavesReading(a, id)
    ensures var t := Run(ttl, s, actions); id in t.calls && t.calls[id] == s.calls[id]
    decreases |actions|
  {
    hide Lookup, Put, Fits;
    if actions != [] {
      assert actions[0] in actions && forall a :: a in actions[1..] ==> a in actions;
      StaysReading(ttl, Act(ttl, s, actions[0]), actions[1..], id);
    }
  }

  /** A call that started at clock reading `stamp`, in any interleaving: when it gets to look, an entry of
      its key whose age at that reading is below the TTL is its answer. It asks nobody, writes nothing,
      and nothing that happens later changes its answer. */
  lemma FreshIsServed(ttl: nat, s: System, id: nat, q: Query, before: seq<Action>, after: seq<Action>)
    requires id !in s.calls && forall a :: a in before ==> LeavesReading(a, id)
    requires var e := EntryAt(Run(ttl, Act(ttl, s, Start(id, q)), before).store, KeyOf(q));
             e.Some? && (ttl > 9223372036854775807 * 1000000 || s.clock - e.value.cachedAt < ttl)
    ensures var u := Run(ttl, Act(ttl, s, Start(id, q)), before);
            var v := Act(ttl, u, Look(id));
            var t := Run(ttl, v, after);
            && v.log == u.log && v.store == u.store && id in t.calls
            && t.calls[id].phase == FromCache(EntryAt(u.store, KeyOf(q)).value.answer)
  {
    hide Run, KeyOf, EntryAt, Put, Fits, Lookup;
    var started := Act(ttl, s, Start(id, q));
    StaysReading(ttl, started, before, id);
    var u := Run(ttl, started, before);
    LookupHits(u.store, q, ttl, s.clock);
    StaysServed(ttl, Act(ttl, u, Look(id)), after, id);
  }

  lemma {:induction false} StaysServed(ttl: nat, s: System, actions: seq<Action>, id: nat)
    requires id in s.calls && s.calls[id].phase.FromCache?
    ensures var t := Run(ttl, s, actions); id in t.calls && t.calls[id] == s.calls[id]
    decreases |actions|
  {
    hide Lookup, Put, Fits;
    if actions != [] {
      StaysServed(ttl, Act(ttl, s, actions[0]), actions[1..], id);
    }
  }

  /** After a call wrote its answer, the next one with the same key is served that answer while the first
      one's clock reading is less than the TTL ago, without a request. */
  lemma WrittenIsServed(ttl: nat, s: System, id: nat, saved: bool, next: nat, q: Query, now: int)
    requires id in s.calls && s.calls[id].phase.Holding? && Fits(s.calls[id].query, s.calls[id].phase.answer)
    requires next !in s.calls && KeyOf(q) == KeyOf(s.calls[id].query)
    requires ttl > 9223372036854775807 * 1000000 || now - s.calls[id].stamp < ttl
    ensures var t := Run(ttl, s, [Write(id, saved), Tick(now), Start(next, q), Look(next)]);
            && next in t.calls && t.calls[next].phase == FromCache(s.calls[id].phase.answer) && t.log == s.log
  {
    hide Run, KeyOf, EntryAt, Put, Fits, Lookup;
    var c := s.calls[id];
    assert [Write(id, saved), Tick(now), Start(next, q), Look(next)] ==
           [Write(id, saved), Tick(now)] + [Start(next, q), Look(next)];
    RunTwo(ttl, s, Write(id, saved), Tick(now), [Start(next, q), Look(next)]);
    var u := Act(ttl, Act(ttl, s, Write(id, saved)), Tick(now));
    assert [Start(next, q), Look(next)] == [Start(next, q), Look(next)] + [];
    RunTwo(ttl, u, Start(next, q), Look(next), []);
    RunNone(ttl, Act(ttl, Act(ttl, u, Start(next, q)), Look(next)));
    PutEntry(s.store, c.query, c.phase.answer, c.stamp, KeyOf(q));
    LookupHits(u.store, q, ttl, now);
  }

  // ---------------------------------------------------------------------------
  // The client
  // ---------------------------------------------------------------------------

  class CacheStore {
    var tags: map<string, TagsEntry>
    var digests: map<string, DigestEntry>

    constructor ()
      ensures Value() == Store(map[], map[])
    {
      tags, digests := map[], map[];
    }

    function Value(): Store
      reads this
    {
      Store(tags, digests)
    }

    method TagListIfFresh(repo: string, ttl: nat, now: int) returns (r: Option<seq<string>>)
      ensures Lookup(Value(), TagsOf(repo), ttl, now) == if r.Some? then Some(Tags(r.value)) else None
      ensures r.Some? <==> repo in tags && (ttl > 9223372036854775807 * 1000000 || now - tags[repo].cachedAt < ttl)
      ensures r.Some? ==> r.value == tags[repo].tags
    {
      if repo !in tags {
        return None;
      }
      var entry := tags[repo];
      return if IsFresh(entry.cachedAt, ttl, now) then Some(entry.tags) else None;
    }

    method DigestIfFresh(repo: string, tag: string, ttl: nat, now: int) returns (r: Option<string>)
      ensures Lookup(Value(), DigestOf(repo, tag), ttl, now) == if r.Some? then Some(Digest(r.value)) else None
      ensures var key := repo + ":" + tag;
              && (r.Some? <==> key in digests && (ttl > 9223372036854775807 * 1000000 || now - digests[key].cachedAt < ttl))
              && (r.Some? ==> r.value == digests[key].digest)
    {
      var key := DigestKey(repo, tag);
      if key !in digests {
        return None;
      }
      var entry := digests[key];
      return if IsFresh(entry.cachedAt, ttl, now) then Some(entry.digest) else None;
    }

    method PutTagList(repo: string, list: seq<string>, at: int)
      modifies this
      ensures Value() == Put(old(Value()), TagsOf(repo), Tags(list), at)
    {
      tags := tags[repo := TagsEntry(at, list)];
    }

    method PutDigest(repo: string, tag: string, digest: string, at: int)
      modifies this
      ensures Value() == Put(old(Value()), DigestOf(repo, tag), Digest(digest), at)
    {
      digests := digests[DigestKey(repo, tag) := DigestEntry(at, digest)];
    }
  }

  /** One call with nothing in between, on a client at rest: `response` is what the registry would
      say, `saved` whether the cache file could be written. */
  function Alone(ttl: nat, store: Store, q: Query, now: int, response: Option<Answer>, saved: bool): System {
    Run(ttl, System(store, now, map[], {}),
        [Start(0, q), Look(0), if response.Some? then Receive(0, response.value) else Fail(0), Write(0, saved)])
  }

  /** The shape of an uninterrupted call: a hit asks nobody and writes nothing. */
  lemma AloneIs(ttl: nat, store: Store, q: Query, now: int, response: Option<Answer>, saved: bool)
    requires response.Some? ==> Fits(q, response.value)
    ensures var s := Alone(ttl, store, q, now, response, saved);
            var hit := Lookup(store, q, ttl, now);
            && 0 in s.calls
            && (hit.Some? ==> s.store == store && s.log == {} && s.calls[0].phase == FromCache(hit.value))
            && (hit.None? && response.None? ==> s.store == store && s.calls[0].phase == Failed)
            && (hit.None? && response.Some? ==>
                  && s.store == Put(store, q, response.value, now)
                  && s.calls[0].phase == if saved then Fetched(response.value) else Failed)
  {
    hide Lookup, Put, Fits;
    var s := System(store, now, map[], {});
    var reply := if response.Some? then Receive(0, response.value) else Fail(0);
    var write := Write(0, saved);
    assert [Start(0, q), Look(0), reply, write] == [Start(0, q), Look(0)] + [reply, write];
    RunTwo(ttl, s, Start(0, q), Look(0), [reply, write]);
    var t := Act(ttl, Act(ttl, s, Start(0, q)), Look(0));
    assert [reply, write] == [reply, write] + [];
    RunTwo(ttl, t, reply, write, []);
  }

  class RegistryClient {
    const cache: CacheStore
    const ttl: nat

    constructor (cache: CacheStore, ttl: nat)
      ensures this.cache == cache && this.ttl == ttl
    {
      this.cache := cache;
      this.ttl := ttl;
    }

    method ListTags(repo: string, now: int, response: Result<seq<string>>, saved: Result<()>) returns (r: Result<seq<string>>)
      modifies cache
      ensures var s := Alone(ttl, old(cache.Value()), TagsOf(repo), now,
                             if response.Ok? then Some(Tags(response.value)) else None, saved.Ok?);
              && cache.Value() == s.store && 0 in s.calls
              && (r.Ok? <==> !s.calls[0].phase.Failed?)
              && (r.Ok? ==> s.calls[0].phase in {FromCache(Tags(r.value)), Fetched(Tags(r.value))})
              && (r.Err? ==> if response.Err? then r.error == response.error else saved.Err? && r.error == saved.error)
    {
      hide Alone, Put, Lookup;
      AloneIs(ttl, cache.Value(), TagsOf(repo), now, if response.Ok? then Some(Tags(response.value)) else None, saved.Ok?);
      var cached := cache.TagListIfFresh(repo, ttl, now);
      if cached.Some? {
        return Ok(cached.value);
      }
      var tags :- response;
      cache.PutTagList(repo, tags, now);
      var _ :- saved;
      return Ok(tags);
    }

    method ResolveDigest(repo: string, tag: string, now: int, response: Result<string>, saved: Result<()>)
      returns (r: Result<string>)
      modifies cache
      ensures var s := Alone(ttl, old(cache.Value()), DigestOf(repo, tag), now,
                             if response.Ok? then Some(Digest(response.value)) else None, saved.Ok?);
              && cache.Value() == s.store && 0 in s.calls
              && (r.Ok? <==> !s.calls[0].phase.Failed?)
              && (r.Ok? ==> s.calls[0].phase in {FromCache(Digest(r.value)), Fetched(Digest(r.value))})
              && (r.Err? ==> if response.Err? then r.error == response.error else saved.Err? && r.error == saved.error)
    {
      hide Alone, Put, Lookup;
      AloneIs(ttl, cache.Value(), DigestOf(repo, tag), now,
              if response.Ok? then Some(Digest(response.value)) else None, saved.Ok?);
      var cached := cache.DigestIfFresh(repo, tag, ttl, now);
      if cached.Some? {
        return Ok(cached.value);
      }
      var digest :- response;
      cache.PutDigest(repo, tag, digest, now);
      var _ :- saved;
      return Ok(digest);
    }
  }
}
