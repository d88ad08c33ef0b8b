// Merging the three scans into one host list.
module Discovery {
  import opened Wrappers

  /** An address: all IPv4 addresses come before all IPv6 ones, each family in numeric order. */
  datatype Ip = V4(bits: nat) | V6(bits: nat)

  predicate Before(a: Ip, b: Ip) {
    (a.V4? && b.V6?) || (a.V4? == b.V4? && a.bits < b.bits)
  }

  datatype MdnsFinding = MdnsFinding(ip: Ip, hostname: Option<string>)

  datatype ArpEntry = ArpEntry(ip: Ip, mac: string)

  datatype DiscoveredHost = DiscoveredHost(ip: Ip, hostname: Option<string>, mac: Option<string>, isKnownServer: bool)

  // ---------------------------------------------------------------------------
  // The declarative specification
  // ---------------------------------------------------------------------------

  /** The first mDNS name present for the address. */
  function FirstHostname(mdns: seq<MdnsFinding>, ip: Ip): Option<string> {
    if mdns == [] then None
    else if mdns[0].ip == ip && mdns[0].hostname.Some? then mdns[0].hostname
    else FirstHostname(mdns[1..], ip)
  }

  function FirstMac(arp: seq<ArpEntry>, ip: Ip): Option<string> {
    if arp == [] then None
    else if arp[0].ip == ip then Some(arp[0].mac)
    else FirstMac(arp[1..], ip)
  }

  function Sources(mdns: seq<MdnsFinding>, icmp: seq<Ip>, arp: seq<ArpEntry>): set<Ip> {
    (set f | f in mdns :: f.ip) + (set ip | ip in icmp) + (set e | e in arp :: e.ip)
  }

  function HostFor(mdns: seq<MdnsFinding>, arp: seq<ArpEntry>, known: seq<Ip>, ip: Ip): DiscoveredHost {
    DiscoveredHost(ip, FirstHostname(mdns, ip), FirstMac(arp, ip), ip in known)
  }

  predicate StrictlySorted(hosts: seq<DiscoveredHost>) {
    forall i, j :: 0 <= i < j < |hosts| ==> Before(hosts[i].ip, hosts[j].ip)
  }

  function Addresses(hosts: seq<DiscoveredHost>): set<Ip> {
    set h | h in hosts :: h.ip
  }

  /** Strictly sorted, one host for each address of the three sources, each with the first name and
      the first MAC seen for it and the server flag. */
  predicate IsMerge(hosts: seq<DiscoveredHost>, mdns: seq<MdnsFinding>, icmp: seq<Ip>, arp: seq<ArpEntry>, known: seq<Ip>) {
    && StrictlySorted(hosts)
    && Addresses(hosts) == Sources(mdns, icmp, arp)
    && forall i :: 0 <= i < |hosts| ==> hosts[i] == HostFor(mdns, arp, known, hosts[i].ip)
  }

  // ---------------------------------------------------------------------------
  // The merge
  // ---------------------------------------------------------------------------

  type Table = map<Ip, DiscoveredHost>

  lemma {:induction false} HostnameSnoc(mdns: seq<MdnsFinding>, f: MdnsFinding, ip: Ip)
    ensures FirstHostname(mdns + [f], ip) ==
            if FirstHostname(mdns, ip).Some? then FirstHostname(mdns, ip)
            else if f.ip == ip then f.hostname else None
    ensures FirstHostname(mdns, ip).Some? ==> exists g :: g in mdns && g.ip == ip
  {
    if mdns == [] {
      assert mdns + [f] == [f] && [f][1..] == [];
    } else {
      HostnameSnoc(mdns[1..], f, ip);
      assert (mdns + [f])[1..] == mdns[1..] + [f];
    }
  }

  lemma {:induction false} MacSnoc(arp: seq<ArpEntry>, e: ArpEntry, ip: Ip)
    ensures FirstMac(arp + [e], ip) ==
            if FirstMac(arp, ip).Some? then FirstMac(arp, ip)
            else if e.ip == ip then Some(e.mac) else None
    ensures FirstMac(arp, ip).Some? ==> exists g :: g in arp && g.ip == ip
  {
    if arp == [] {
      assert arp + [e] == [e] && [e][1..] == [];
    } else {
      MacSnoc(arp[1..], e, ip);
      assert (arp + [e])[1..] == arp[1..] + [e];
    }
  }

  /** `entry(ip).or_insert_with(..)`. */
  function Entry(t: Table, ip: Ip, known: seq<Ip>): DiscoveredHost {
    if ip in t then t[ip] else DiscoveredHost(ip, None, None, ip in known)
  }

  method MergeResults(mdns: seq<MdnsFinding>, icmp: seq<Ip>, arp: seq<ArpEntry>, known: seq<Ip>)
    returns (hosts: seq<DiscoveredHost>)
    ensures IsMerge(hosts, mdns, icmp, arp, known)
  {
    hide HostFor, Sources;
    var byIp: Table := map[];
    StartHolds(known);
    var i := 0;
    while i < |mdns|
      invariant 0 <= i <= |mdns|
      invariant Reflects(byIp, mdns[..i], [], [], known)
    {
      var host := Entry(byIp, mdns[i].ip, known);
      if host.hostname.None? {
        host := host.(hostname := mdns[i].hostname);
      }
      FindingStep(byIp, mdns, i, known);
      byIp := byIp[mdns[i].ip := host];
      i := i + 1;
    }
    assert mdns[..i] == mdns;
    i := 0;
    while i < |icmp|
      invariant 0 <= i <= |icmp|
      invariant Reflects(byIp, mdns, icmp[..i], [], known)
    {
      HitStep(byIp, mdns, icmp, i, known);
      byIp := byIp[icmp[i] := Entry(byIp, icmp[i], known)];
      i := i + 1;
    }
    assert icmp[..i] == icmp;
    i := 0;
    while i < |arp|
      invariant 0 <= i <= |arp|
      invariant Reflects(byIp, mdns, icmp, arp[..i], known)
    {
      var host := Entry(byIp, arp[i].ip, known);
      if host.mac.None? {
        host := host.(mac := Some(arp[i].mac));
      }
      ArpStep(byIp, mdns, icmp, arp, i, known);
      byIp := byIp[arp[i].ip := host];
      i := i + 1;
    }
    assert arp[..i] == arp;
    ReflectsKeys(byIp, mdns, icmp, arp, known);
    hosts := IntoValues(byIp);
  }

  /** The table holds exactly the addresses seen so far, each with what was seen for it. */
  predicate Reflects(t: Table, mdns: seq<MdnsFinding>, icmp: seq<Ip>, arp: seq<ArpEntry>, known: seq<Ip>) {
    t.Keys == Sources(mdns, icmp, arp) && forall ip :: ip in t ==> t[ip] == HostFor(mdns, arp, known, ip)
  }

  lemma StartHolds(known: seq<Ip>)
    ensures Reflects(map[], [], [], [], known)
  {
  }

  lemma ReflectsKeys(t: Table, mdns: seq<MdnsFinding>, icmp: seq<Ip>, arp: seq<ArpEntry>, known: seq<Ip>)
    requires Reflects(t, mdns, icmp, arp, known)
    ensures forall ip :: ip in t ==> t[ip].ip == ip
  {
  }

  /** A new entry is right too: an address not in the table has no name and no MAC so far. */
  lemma EntryIsRight(t: Table, mdns: seq<MdnsFinding>, icmp: seq<Ip>, arp: seq<ArpEntry>, known: seq<Ip>, ip: Ip)
    requires Reflects(t, mdns, icmp, arp, known)
    ensures Entry(t, ip, known) == HostFor(mdns, arp, known, ip)
  {
    HostnameSnoc(mdns, MdnsFinding(ip, None), ip);
    MacSnoc(arp, ArpEntry(ip, ""), ip);
  }

  lemma SourcesSnoc(mdns: seq<MdnsFinding>, icmp: seq<Ip>, arp: seq<ArpEntry>, f: MdnsFinding, h: Ip, e: ArpEntry)
    ensures Sources(mdns + [f], icmp, arp) == Sources(mdns, icmp, arp) + {f.ip}
    ensures Sources(mdns, icmp + [h], arp) == Sources(mdns, icmp, arp) + {h}
    ensures Sources(mdns, icmp, arp + [e]) == Sources(mdns, icmp, arp) + {e.ip}
  {
    assert forall x :: x in mdns + [f] <==> x in mdns || x == f;
    assert forall x :: x in icmp + [h] <==> x in icmp || x == h;
    assert forall x :: x in arp + [e] <==> x in arp || x == e;
  }

  lemma FindingStep(t: Table, mdns: seq<MdnsFinding>, i: nat, known: seq<Ip>)
    requires i < |mdns| && Reflects(t, mdns[..i], [], [], known)
    ensures var host := Entry(t, mdns[i].ip, known);
            Reflects(t[mdns[i].ip := if host.hostname.None? then host.(hostname := mdns[i].hostname) else host],
                     mdns[..i + 1], [], [], known)
  {
    hide Sources;
    var f := mdns[i];
    assert mdns[..i + 1] == mdns[..i] + [f];
    EntryIsRight(t, mdns[..i], [], [], known, f.ip);
    SourcesSnoc(mdns[..i], [], [], f, f.ip, ArpEntry(f.ip, ""));
    forall ip
      ensures FirstHostname(mdns[..i + 1], ip) ==
              if FirstHostname(mdns[..i], ip).Some? then FirstHostname(mdns[..i], ip)
              else if f.ip == ip then f.hostname else None
    {
      HostnameSnoc(mdns[..i], f, ip);
    }
  }

  lemma HitStep(t: Table, mdns: seq<MdnsFinding>, icmp: seq<Ip>, i: nat, known: seq<Ip>)
    requires i < |icmp| && Reflects(t, mdns, icmp[..i], [], known)
    ensures Reflects(t[icmp[i] := Entry(t, icmp[i], known)], mdns, icmp[..i + 1], [], known)
  {
    hide Sources;
    var h := icmp[i];
    assert icmp[..i + 1] == icmp[..i] + [h];
    EntryIsRight(t, mdns, icmp[..i], [], known, h);
    SourcesSnoc(mdns, icmp[..i], [], MdnsFinding(h, None), h, ArpEntry(h, ""));
  }

  lemma ArpStep(t: Table, mdns: seq<MdnsFinding>, icmp: seq<Ip>, arp: seq<ArpEntry>, i: nat, known: seq<Ip>)
    requires i < |arp| && Reflects(t, mdns, icmp, arp[..i], known)
    ensures var host := Entry(t, arp[i].ip, known);
            Reflects(t[arp[i].ip := if host.mac.None? then host.(mac := Some(arp[i].mac)) else host],
                     mdns, icmp, arp[..i + 1], known)
  {
    hide Sources;
    var e := arp[i];
    assert arp[..i + 1] == arp[..i] + [e];
    EntryIsRight(t, mdns, icmp, arp[..i], known, e.ip);
    SourcesSnoc(mdns, icmp, arp[..i], MdnsFinding(e.ip, None), e.ip, e);
    forall ip
      ensures FirstMac(arp[..i + 1], ip) ==
              if FirstMac(arp[..i], ip).Some? then FirstMac(arp[..i], ip)
              else if e.ip == ip then Some(e.mac) else None
    {
      MacSnoc(arp[..i], e, ip);
    }
  }

  // ---------------------------------------------------------------------------
  // Reading the ordered table out
  // ---------------------------------------------------------------------------

  lemma BeforeOrder(a: Ip, b: Ip, c: Ip)
    ensures a == b || Before(a, b) || Before(b, a)
    ensures !(Before(a, b) && Before(b, a)) && !Before(a, a)
    ensures Before(a, b) && Before(b, c) ==> Before(a, c)
  {
  }

  predicate IsLeast(m: Ip, s: set<Ip>) {
    m in s && forall x :: x in s && x != m ==> Before(m, x)
  }

  lemma {:induction false} LeastExists(s: set<Ip>)
    requires s != {}
    ensures exists m :: IsLeast(m, s)
  {
    var a :| a in s;
    var rest := s - {a};
    if rest == {} {
      assert forall x :: x in s && x != a ==> x in rest;
      assert IsLeast(a, s);
    } else {
      LeastExists(rest);
      var m :| IsLeast(m, rest);
      LeastOfTwo(a, m, rest);
      assert s == rest + {a};
    }
  }

  lemma LeastOfTwo(a: Ip, m: Ip, rest: set<Ip>)
    requires IsLeast(m, rest) && a !in rest
    ensures exists n :: IsLeast(n, rest + {a})
  {
    BeforeOrder(a, m, a);
    var n := if Before(a, m) then a else m;
    forall x | x in rest + {a} && x != n
      ensures Before(n, x)
    {
      BeforeOrder(a, m, x);
    }
    assert IsLeast(n, rest + {a});
  }

  /** `BTreeMap::into_values`: the hosts in address order. */
  method IntoValues(t: Table) returns (hosts: seq<DiscoveredHost>)
    requires forall ip :: ip in t ==> t[ip].ip == ip
    ensures StrictlySorted(hosts) && Addresses(hosts) == t.Keys
    ensures forall h :: h in hosts ==> h.ip in t && h == t[h.ip]
  {
    var left := t.Keys;
    hosts := [];
    while left != {}
      invariant left <= t.Keys && StrictlySorted(hosts)
      invariant Addresses(hosts) == t.Keys - left
      invariant forall h :: h in hosts ==> h.ip in t && h == t[h.ip]
      invariant forall h, x :: h in hosts && x in left ==> Before(h.ip, x)
      decreases left
    {
      LeastExists(left);
      var m :| IsLeast(m, left);
      ghost var before := hosts;
      hosts := hosts + [t[m]];
      AddressesSnoc(before, t[m]);
      left := left - {m};
    }
  }

  lemma AddressesSnoc(hosts: seq<DiscoveredHost>, h: DiscoveredHost)
    ensures Addresses(hosts + [h]) == Addresses(hosts) + {h.ip}
  {
    assert forall x :: x in hosts + [h] <==> x in hosts || x == h;
  }

  // ---------------------------------------------------------------------------
  // The specification determines the output
  // ---------------------------------------------------------------------------

  lemma {:induction false} SortedDetermined(a: seq<DiscoveredHost>, b: seq<DiscoveredHost>)
    requires StrictlySorted(a) && StrictlySorted(b) && Addresses(a) == Addresses(b)
    requires forall x, y :: x in a && y in b && x.ip == y.ip ==> x == y
    ensures a == b
    decreases |a|
  {
    assert b != [] ==> b[0].ip in Addresses(a);
    if a != [] {
      assert a[0].ip in Addresses(b);
      HeadsAgree(a, b);
      assert a == [a[0]] + a[1..] && b == [b[0]] + b[1..];
      TailAddresses(a);
      TailAddresses(b);
      SortedDetermined(a[1..], b[1..]);
    }
  }

  lemma HeadsAgree(a: seq<DiscoveredHost>, b: seq<DiscoveredHost>)
    requires a != [] && b != [] && StrictlySorted(a) && StrictlySorted(b) && Addresses(a) == Addresses(b)
    ensures a[0].ip == b[0].ip
  {
    assert a[0].ip in Addresses(b) && b[0].ip in Addresses(a);
    var j :| 0 <= j < |b| && b[j].ip == a[0].ip;
    var i :| 0 <= i < |a| && a[i].ip == b[0].ip;
    BeforeOrder(a[0].ip, b[0].ip, a[0].ip);
  }

  lemma TailAddresses(a: seq<DiscoveredHost>)
    requires a != [] && StrictlySorted(a)
    ensures Addresses(a[1..]) == Addresses(a) - {a[0].ip}
  {
    assert a == [a[0]] + a[1..];
    forall ip
      ensures ip in Addresses(a[1..]) <==> ip in Addresses(a) && ip != a[0].ip
    {
      if ip in Addresses(a[1..]) {
        var k :| 0 <= k < |a[1..]| && a[1..][k].ip == ip;
        assert a[k + 1].ip == ip;
        BeforeOrder(a[0].ip, ip, ip);
      } else if ip in Addresses(a) {
        var h :| h in a && h.ip == ip;
        assert h in a[1..] || h == a[0];
      }
    }
  }

  /** Two lists that meet the specification are equal, and it depends on the ICMP hits only as a
      set: reordering or repeating them changes nothing. */
  lemma MergeDetermined(a: seq<DiscoveredHost>, b: seq<DiscoveredHost>, mdns: seq<MdnsFinding>, icmp: seq<Ip>, other: seq<Ip>,
                        arp: seq<ArpEntry>, known: seq<Ip>)
    requires IsMerge(a, mdns, icmp, arp, known) && IsMerge(b, mdns, other, arp, known)
    requires (set ip | ip in icmp) == (set ip | ip in other)
    ensures a == b
  {
    forall x, y | x in a && y in b && x.ip == y.ip
      ensures x == y
    {
      assert x == HostFor(mdns, arp, known, x.ip) && y == HostFor(mdns, arp, known, y.ip);
    }
    SortedDetermined(a, b);
  }

  /** The list goes up through the IPv4 and then the IPv6 addresses. */
  lemma MergeSorted(hosts: seq<DiscoveredHost>, mdns: seq<MdnsFinding>, icmp: seq<Ip>, arp: seq<ArpEntry>, known: seq<Ip>,
                    i: nat, j: nat)
    requires IsMerge(hosts, mdns, icmp, arp, known) && i < j < |hosts|
    ensures match (hosts[i].ip, hosts[j].ip)
            case (V4(a), V4(b)) => a < b
            case (V6(a), V6(b)) => a < b
            case (V4(_), V6(_)) => true
            case (V6(_), V4(_)) => false
  {
    assert Before(hosts[i].ip, hosts[j].ip);
  }

  /** An address is listed exactly if one of the three scans found it. */
  lemma MergeListed(hosts: seq<DiscoveredHost>, mdns: seq<MdnsFinding>, icmp: seq<Ip>, arp: seq<ArpEntry>, known: seq<Ip>,
                    ip: Ip)
    requires IsMerge(hosts, mdns, icmp, arp, known)
    ensures (exists h :: h in hosts && h.ip == ip) <==>
            (exists f :: f in mdns && f.ip == ip) || ip in icmp || (exists e :: e in arp && e.ip == ip)
  {
    assert ip in Addresses(hosts) <==> ip in Sources(mdns, icmp, arp);
  }

  /** A host's name is the first one its address was found with, its MAC that of its first ARP entry, and
      its flag is set exactly for a known server. */
  lemma MergeReads(hosts: seq<DiscoveredHost>, mdns: seq<MdnsFinding>, icmp: seq<Ip>, arp: seq<ArpEntry>, known: seq<Ip>,
                   h: DiscoveredHost)
    requires IsMerge(hosts, mdns, icmp, arp, known) && h in hosts
    ensures match h.hostname
            case Some(n) => exists k: nat :: IsFirstName(mdns, h.ip, n, k)
            case None => forall f :: f in mdns && f.ip == h.ip ==> f.hostname == None
    ensures match h.mac
            case Some(m) => exists k: nat :: IsFirstMac(arp, h.ip, m, k)
            case None => forall e :: e in arp ==> e.ip != h.ip
    ensures h.isKnownServer <==> h.ip in known
  {
    hide IsFirstName, IsFirstMac;
    var i :| 0 <= i < |hosts| && hosts[i] == h;
    FirstNameFound(mdns, h.ip);
    FirstMacFound(arp, h.ip);
  }

  predicate IsFirstName(mdns: seq<MdnsFinding>, ip: Ip, name: string, k: nat) {
    && k < |mdns| && mdns[k] == MdnsFinding(ip, Some(name))
    && forall j :: 0 <= j < k && mdns[j].ip == ip ==> mdns[j].hostname == None
  }

  predicate IsFirstMac(arp: seq<ArpEntry>, ip: Ip, mac: string, k: nat) {
    k < |arp| && arp[k] == ArpEntry(ip, mac) && forall j :: 0 <= j < k ==> arp[j].ip != ip
  }

  lemma {:induction false} FirstNameFound(mdns: seq<MdnsFinding>, ip: Ip)
    ensures FirstHostname(mdns, ip).Some? ==> exists k: nat :: IsFirstName(mdns, ip, FirstHostname(mdns, ip).value, k)
    ensures FirstHostname(mdns, ip).None? ==> forall f :: f in mdns && f.ip == ip ==> f.hostname == None
  {
    if mdns != [] {
      FirstNameFound(mdns[1..], ip);
      var r := FirstHostname(mdns, ip);
      if mdns[0].ip == ip && mdns[0].hostname.Some? {
        assert IsFirstName(mdns, ip, r.value, 0);
      } else if r.Some? {
        var k: nat :| IsFirstName(mdns[1..], ip, r.value, k);
        assert forall j :: 0 < j < |mdns| ==> mdns[j] == mdns[1..][j - 1];
        assert IsFirstName(mdns, ip, r.value, k + 1);
      }
      assert forall x :: x in mdns ==> x == mdns[0] || x in mdns[1..];
    }
  }

  lemma {:induction false} FirstMacFound(arp: seq<ArpEntry>, ip: Ip)
    ensures FirstMac(arp, ip).Some? ==> exists k: nat :: IsFirstMac(arp, ip, FirstMac(arp, ip).value, k)
    ensures FirstMac(arp, ip).None? ==> forall e :: e in arp ==> e.ip != ip
  {
    if arp != [] {
      FirstMacFound(arp[1..], ip);
      var r := FirstMac(arp, ip);
      if arp[0].ip == ip {
        assert IsFirstMac(arp, ip, r.value, 0);
      } else if r.Some? {
        var k: nat :| IsFirstMac(arp[1..], ip, r.value, k);
        assert forall j :: 0 < j < |arp| ==> arp[j] == arp[1..][j - 1];
        assert IsFirstMac(arp, ip, r.value, k + 1);
      }
      assert forall x :: x in arp ==> x == arp[0] || x in arp[1..];
    }
  }
}
