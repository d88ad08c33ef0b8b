// The trust-on-first-use store, and what it guarantees over any sequence of connections.
module KnownHosts {
  import opened Wrappers
  import opened Text

  /** A pinned key. `firstSeen` is opaque to the store. */
  datatype HostKey = HostKey(fingerprint: string, keyType: string, firstSeen: int)

  datatype TofuPolicy = TrustOnFirstUse | Strict

  datatype TofuOutcome = Pinned | Matched | Mismatch(expected: HostKey, actual: string) | UnknownRejected

  function Endpoint(host: string, port: Port): string {
    host + ":" + Decimal(port)
  }

  /** Endpoints never collide, also for hosts that contain ':' themselves. */
  lemma EndpointInjective(h: string, p: Port, g: string, q: Port)
    ensures Endpoint(h, p) == Endpoint(g, q) <==> h == g && p == q
  {
    var s, t := Endpoint(h, p), Endpoint(g, q);
    if s == t {
      LastColon(h, Decimal(p), g, Decimal(q));
      DecimalRoundTrip(p);
      DecimalRoundTrip(q);
    }
  }

  lemma LastColon(h: string, d: string, g: string, e: string)
    requires AllDigits(d) && AllDigits(e) && h + ":" + d == g + ":" + e
    ensures h == g && d == e
  {
    var s, t := h + ":" + d, g + ":" + e;
    assert s[|h|] == ':' && t[|g|] == ':';
    assert s[..|h|] == h && t[..|g|] == g && s[|h| + 1..] == d && t[|g| + 1..] == e;
  }

  // ---------------------------------------------------------------------------
  // One check
  // ---------------------------------------------------------------------------

  datatype Check = Check(host: string, port: Port, observed: HostKey, policy: TofuPolicy)

  type Entries = map<string, HostKey>

  function Verdict(entries: Entries, c: Check): TofuOutcome {
    var key := Endpoint(c.host, c.port);
    if key in entries then
      if entries[key].fingerprint == c.observed.fingerprint then Matched
      else Mismatch(entries[key], c.observed.fingerprint)
    else if c.policy.TrustOnFirstUse? then Pinned
    else UnknownRejected
  }

  /** One check, on the store's own text keys. A known endpoint matches exactly on its fingerprint, and a
      mismatch hands out the pinned key and the fingerprint seen; an unknown one is pinned, as observed,
      exactly under trust on first use. Nothing else in the store changes. */
  lemma OneCheck(entries: Entries, c: Check)
    ensures var key, v, after := c.host + ":" + Decimal(c.port), Verdict(entries, c), Remember(entries, c);
            if key in entries then
              && after == entries
              && if entries[key].fingerprint == c.observed.fingerprint then v == Matched
                 else v == Mismatch(entries[key], c.observed.fingerprint)
            else if c.policy == TrustOnFirstUse then
              && v == Pinned && key in after && after[key] == c.observed && after.Keys == entries.Keys + {key}
              && forall k :: k in entries ==> after[k] == entries[k]
            else v == UnknownRejected && after == entries
  {
  }

  function Remember(entries: Entries, c: Check): Entries {
    if Verdict(entries, c).Pinned? then entries[Endpoint(c.host, c.port) := c.observed] else entries
  }

  class Store {
    var entries: Entries

    constructor (entries: Entries)
      ensures this.entries == entries
    {
      this.entries := entries;
    }

    method Get(host: string, port: Port) returns (r: Option<HostKey>)
      ensures r.Some? <==> Endpoint(host, port) in entries
      ensures r.Some? ==> r.value == entries[Endpoint(host, port)]
    {
      var key := Endpoint(host, port);
      return if key in entries then Some(entries[key]) else None;
    }

    method VerifyOrPin(host: string, port: Port, observed: HostKey, policy: TofuPolicy) returns (r: TofuOutcome)
      modifies this
      ensures r == Verdict(old(entries), Check(host, port, observed, policy))
      ensures entries == Remember(old(entries), Check(host, port, observed, policy))
    {
      var key := Endpoint(host, port);
      if key in entries {
        var existing := entries[key];
        if existing.fingerprint == observed.fingerprint {
          return Matched;
        }
        return Mismatch(existing, observed.fingerprint);
      }
      if policy.Strict? {
        return UnknownRejected;
      }
      entries := entries[key := observed];
      return Pinned;
    }
  }

  // ---------------------------------------------------------------------------
  // Any sequence of checks
  // ---------------------------------------------------------------------------

  function RunChecks(entries: Entries, cs: seq<Check>): Entries
    decreases |cs|
  {
    if cs == [] then entries else RunChecks(Remember(entries, cs[0]), cs[1..])
  }

  /** The verdict of check `i` in the run. */
  function VerdictAt(entries: Entries, cs: seq<Check>, i: nat): TofuOutcome
    requires i < |cs|
  {
    Verdict(RunChecks(entries, cs[..i]), cs[i])
  }

  predicate Accepted(o: TofuOutcome) {
    o.Pinned? || o.Matched?
  }

  lemma {:induction false} EntriesStay(entries: Entries, cs: seq<Check>, key: string)
    requires key in entries
    ensures key in RunChecks(entries, cs) && RunChecks(entries, cs)[key] == entries[key]
    decreases |cs|
  {
    if cs != [] {
      EntriesStay(Remember(entries, cs[0]), cs[1..], key);
    }
  }

  lemma {:induction false} RunSplits(entries: Entries, a: seq<Check>, b: seq<Check>)
    ensures RunChecks(entries, a + b) == RunChecks(RunChecks(entries, a), b)
    decreases |a|
  {
    if a == [] {
      assert a + b == b;
    } else {
      assert (a + b)[0] == a[0] && (a + b)[1..] == a[1..] + b;
      RunSplits(Remember(entries, a[0]), a[1..], b);
    }
  }

  /** A pinned key is never replaced and never disappears, over any later checks. */
  lemma PinnedForever(entries: Entries, cs: seq<Check>, i: nat, j: nat, key: string)
    requires i <= j <= |cs| && key in RunChecks(entries, cs[..i])
    ensures key in RunChecks(entries, cs[..j])
    ensures RunChecks(entries, cs[..j])[key] == RunChecks(entries, cs[..i])[key]
  {
    assert cs[..j] == cs[..i] + cs[i..j];
    RunSplits(entries, cs[..i], cs[i..j]);
    EntriesStay(RunChecks(entries, cs[..i]), cs[i..j], key);
  }

  /** After an accepted check the endpoint is pinned to the observed fingerprint. */
  lemma AcceptedIsPinned(entries: Entries, cs: seq<Check>, i: nat)
    requires i < |cs| && Accepted(VerdictAt(entries, cs, i))
    ensures var key := Endpoint(cs[i].host, cs[i].port);
            var after := RunChecks(entries, cs[..i + 1]);
            key in after && after[key].fingerprint == cs[i].observed.fingerprint
  {
    assert cs[..i + 1] == cs[..i] + [cs[i]];
    RunSplits(entries, cs[..i], [cs[i]]);
    assert [cs[i]][1..] == [];
    var before := RunChecks(entries, cs[..i]);
    assert RunChecks(before, [cs[i]]) == RunChecks(Remember(before, cs[i]), []);
  }

  /** All accepted checks of one host and port saw one fingerprint. */
  lemma OneFingerprint(entries: Entries, cs: seq<Check>, i: nat, j: nat)
    requires i < j < |cs| && cs[i].host == cs[j].host && cs[i].port == cs[j].port
    requires Accepted(VerdictAt(entries, cs, i))
    ensures Accepted(VerdictAt(entries, cs, j)) <==> cs[i].observed.fingerprint == cs[j].observed.fingerprint
    ensures !Accepted(VerdictAt(entries, cs, j)) ==> VerdictAt(entries, cs, j).Mismatch?
  {
    AcceptedIsPinned(entries, cs, i);
    PinnedForever(entries, cs, i + 1, j, Endpoint(cs[i].host, cs[i].port));
  }

  /** Checks of other endpoints do not matter: a new entry comes from a trusting check of its own
      endpoint, so strict checks never add one. */
  lemma {:induction false} NewEntriesArePinned(entries: Entries, cs: seq<Check>, host: string, port: Port)
    requires Endpoint(host, port) !in entries
    ensures Endpoint(host, port) in RunChecks(entries, cs) <==>
            exists i :: 0 <= i < |cs| && cs[i].policy.TrustOnFirstUse? && cs[i].host == host && cs[i].port == port
    decreases |cs|
  {
    if cs != [] {
      var c, key := cs[0], Endpoint(host, port);
      EndpointInjective(c.host, c.port, host, port);
      if key in Remember(entries, c) {
        EntriesStay(Remember(entries, c), cs[1..], key);
        assert cs[0].policy.TrustOnFirstUse?;
      } else {
        NewEntriesArePinned(Remember(entries, c), cs[1..], host, port);
        var tail := cs[1..];
        assert forall i :: 0 <= i < |tail| ==> tail[i] == cs[i + 1];
        if i :| 0 <= i < |cs| && cs[i].policy.TrustOnFirstUse? && cs[i].host == host && cs[i].port == port {
          assert i > 0;
          assert tail[i - 1] == cs[i];
        }
      }
    }
  }
}
