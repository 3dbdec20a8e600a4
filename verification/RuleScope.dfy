/**
 Which packets the zones of a plan take, in terms of the rules and lists they were built from.
 The compiler reads a rule's addresses and source matchers, strips IPv6 under the v4-only
 posture of its egress, and ignores domains, geo sets and ports; so a zone can take packets
 its rule does not name. The results say what every zone takes and exactly when that happens.
 */
module RuleScope {
  import opened Cidr
  import opened Profiles
  import opened Compile
  import opened Datapath
  import opened PlanFacts
  import opened Hybrid

  // ---- what a rule names ----

  /** The rule has some destination matcher; blank entries impose no constraint. */
  predicate NamesDestination(r: Rule) {
    HasEntry(r.ipCidr) || HasNonBlank(r.domain) || HasNonBlank(r.domainSuffix) || HasNonBlank(r.geoSite)
    || HasNonBlank(r.geoIP)
  }

  /** By address: a packet does not show the domain it was looked up by. */
  ghost predicate DestinationNamed(r: Rule, k: Packet) { NamesDestination(r) ==> Named(r.ipCidr, DstAddr(k)) }

  predicate PortNamed(r: Rule, k: Packet) { r.port == [] || (k.l4 != OtherL4 && k.dport in r.port) }

  ghost predicate SourceNamed(r: Rule, k: Packet) {
    && (HasEntry(r.sourceIP) ==> Named(r.sourceIP, SrcAddr(k)))
    && (HasNonBlank(r.sourceMAC) ==> k.mac in r.sourceMAC)
    && (HasNonBlank(r.sourceIface) ==> exists n :: n in r.sourceIface && IfaceMatches(n, k.iif))
    && (r.sourcePort != [] ==> k.l4 != OtherL4 && k.sport in r.sourcePort)
  }

  ghost predicate RuleNames(r: Rule, k: Packet) { DestinationNamed(r, k) && PortNamed(r, k) && SourceNamed(r, k) }

  // ---- what its zone takes ----

  ghost predicate Kept(p: Profile, tag: string, es: seq<Entry>, a: Addr) { Named(es, a) && !Stripped(p, tag, a) }

  ghost predicate AnyKept(p: Profile, tag: string, es: seq<Entry>) { exists a :: Kept(p, tag, es, a) }

  /** Some source matcher is left once the posture has stripped the source addresses. */
  ghost predicate Scoped(p: Profile, r: Rule) {
    && HasSourceMatcher(r)
    && (r.sourceMAC != [] || r.sourceIface != [] || r.sourcePort != [] || AnyKept(p, r.outbound, r.sourceIP))
  }

  /** The kept destinations, or every destination when there is none but a source is left. */
  ghost predicate DestinationTaken(p: Profile, r: Rule, k: Packet) {
    if AnyKept(p, r.outbound, r.ipCidr) then Kept(p, r.outbound, r.ipCidr, DstAddr(k)) else Scoped(p, r)
  }

  /** Every kind of source matcher that is left accepts the packet. */
  ghost predicate SourceTaken(p: Profile, r: Rule, k: Packet) {
    && (AnyKept(p, r.outbound, r.sourceIP) ==> Kept(p, r.outbound, r.sourceIP, SrcAddr(k)))
    && (r.sourceMAC != [] ==> k.mac in r.sourceMAC)
    && (r.sourceIface != [] ==> exists n :: n in r.sourceIface && IfaceMatches(n, k.iif))
    && (r.sourcePort != [] ==> k.l4 != OtherL4 && k.sport in r.sourcePort)
  }

  ghost predicate Taken(p: Profile, r: Rule, k: Packet) {
    DestinationTaken(p, r, k) && (HasSourceMatcher(r) ==> SourceTaken(p, r, k))
  }

  /** The zone takes exactly what the rule's surviving matchers say. */
  ghost predicate TakesFor(p: Profile, z: Zone, r: Rule) {
    z.tag == r.outbound && forall k :: ZoneMatches(z, k) <==> Taken(p, r, k)
  }

  /** The list of either family is non-empty exactly when some address of it is kept. */
  lemma KeptLists(p: Profile, tag: string, es: seq<Entry>)
    requires WellFormed(es)
    ensures var c := Classify(KeptEntries(p, tag, es));
      && (c.v4 == [] && c.v6 == [] <==> !AnyKept(p, tag, es))
      && forall a: Addr :: Covered(if a.v6 then c.v6 else c.v4, a) <==> Kept(p, tag, es, a)
  {
    var kept := KeptEntries(p, tag, es);
    KeptNamed(p, tag, es);
    ClassifyCoversNamed(kept);
    EmptyCoversNone(kept);
    forall a ensures Named(kept, a) <==> Kept(p, tag, es, a) {}
  }

  lemma EmptyCoversNone(es: seq<Entry>)
    requires WellFormed(es)
    ensures Classify(es).v4 == [] && Classify(es).v6 == [] <==> forall a :: !Named(es, a)
  {
    var c := Classify(es);
    ClassifyCoversNamed(es);
    if c.v4 != [] {
      NetworkInside(c.v4[0]);
      assert c.v4[0] in c.v4 && Covered(c.v4, Network(c.v4[0]));
    } else if c.v6 != [] {
      NetworkInside(c.v6[0]);
      assert c.v6[0] in c.v6 && Covered(c.v6, Network(c.v6[0]));
    } else {
      forall a ensures !Named(es, a) { assert !Covered([], a); }
    }
  }

  /** The zone a rule adds, field by field. */
  function RuleZone(p: Profile, r: Rule, name: string, domains: seq<string>): Zone {
    var c := Classify(KeptEntries(p, r.outbound, r.ipCidr));
    if HasSourceMatcher(r) then
      var s := Classify(KeptEntries(p, r.outbound, r.sourceIP));
      Zone(name, r.outbound, {}, c.v4, c.v6, domains, s.v4, s.v6, r.sourceMAC, r.sourceIface, r.sourcePort,
           s.v4 != [] || s.v6 != [] || r.sourceMAC != [] || r.sourceIface != [] || r.sourcePort != [])
    else Zone(name, r.outbound, {}, c.v4, c.v6, domains, [], [], [], [], [], false)
  }

  lemma RuleAdds(p: Profile, collect: bool, b: Build, r: Rule) returns (z: Zone)
    requires RuleStep(p, collect, b, r) != b
    ensures RuleStep(p, collect, b, r).zones == b.zones + [z] && !r.disabled && !r.isDefault
    ensures z == RuleZone(p, r, z.name, z.domains)
  {
    z := RuleStep(p, collect, b, r).zones[|b.zones|];
  }

  lemma RuleZoneTakes(p: Profile, r: Rule, name: string, domains: seq<string>)
    requires WellFormed(r.ipCidr) && WellFormed(r.sourceIP)
    ensures TakesFor(p, RuleZone(p, r, name, domains), r)
    ensures RuleZone(p, r, name, domains).srcScoped <==> Scoped(p, r)
  {
    var z := RuleZone(p, r, name, domains);
    KeptLists(p, r.outbound, r.ipCidr);
    KeptLists(p, r.outbound, r.sourceIP);
    forall k ensures ZoneMatches(z, k) <==> Taken(p, r, k) {
      assert HasDest(z) <==> AnyKept(p, r.outbound, r.ipCidr);
      assert DestOk(z, k) <==> DestinationTaken(p, r, k);
    }
  }

  /** The zone a rule adds takes exactly the packets its surviving matchers accept. */
  lemma RuleStepTakes(p: Profile, collect: bool, b: Build, r: Rule) returns (z: Zone)
    requires WellFormed(r.ipCidr) && WellFormed(r.sourceIP) && RuleStep(p, collect, b, r) != b
    ensures RuleStep(p, collect, b, r).zones == b.zones + [z]
    ensures TakesFor(p, z, r) && (z.srcScoped <==> Scoped(p, r))
  {
    z := RuleAdds(p, collect, b, r);
    RuleZoneTakes(p, r, z.name, z.domains);
  }

  // ---- exactly when that is more than the rule names ----

  /** The rule names sources by address, and none of them is left. */
  ghost predicate SourceLost(p: Profile, r: Rule) {
    HasEntry(r.sourceIP) && !AnyKept(p, r.outbound, r.sourceIP)
  }

  /** The rule names destinations, and none of them is left by address. */
  ghost predicate DestinationLost(p: Profile, r: Rule) {
    NamesDestination(r) && !AnyKept(p, r.outbound, r.ipCidr)
  }

  /** The zone takes some packet at all. */
  ghost predicate Reached(p: Profile, r: Rule) { exists k :: Taken(p, r, k) }

  lemma NothingLost(p: Profile, r: Rule, k: Packet)
    requires Taken(p, r, k) && !SourceLost(p, r) && !DestinationLost(p, r) && r.port == []
    ensures RuleNames(r, k)
  {}

  lemma {:induction false} UnusedPort(ports: seq<int>) returns (n: int)
    ensures forall q :: q in ports ==> q < n
  {
    if ports == [] {
      n := 0;
    } else {
      n := UnusedPort(ports[1..]);
      assert ports == [ports[0]] + ports[1..];
      if n <= ports[0] { n := ports[0] + 1; }
    }
  }

  /** A lost matcher leaves a packet that is taken and not named. */
  lemma LostTakes(p: Profile, r: Rule, k: Packet) returns (w: Packet)
    requires Taken(p, r, k) && (SourceLost(p, r) || DestinationLost(p, r) || r.port != [])
    ensures Taken(p, r, w) && !RuleNames(r, w)
  {
    if SourceLost(p, r) {
      w := if Named(r.sourceIP, SrcAddr(k)) then k.(v6 := false) else k;
      assert !Kept(p, r.outbound, r.sourceIP, SrcAddr(k)) && !Kept(p, r.outbound, r.sourceIP, SrcAddr(w));
    } else if DestinationLost(p, r) {
      w := if Named(r.ipCidr, DstAddr(k)) then k.(v6 := false) else k;
      assert !Kept(p, r.outbound, r.ipCidr, DstAddr(k)) && !Kept(p, r.outbound, r.ipCidr, DstAddr(w));
    } else {
      var n := UnusedPort(r.port);
      w := k.(dport := n);
    }
  }

  /**
   A zone takes only packets its rule names, unless it takes some packet and the rule has a
   port matcher, has lost all its source addresses, or has lost all its destinations. Then
   and only then it takes others.
   */
  lemma TakesOnlyNamedIff(p: Profile, z: Zone, r: Rule)
    requires TakesFor(p, z, r)
    ensures (forall k :: ZoneMatches(z, k) ==> RuleNames(r, k)) <==>
      !(Reached(p, r) && (SourceLost(p, r) || DestinationLost(p, r) || r.port != []))
  {
    if Reached(p, r) && (SourceLost(p, r) || DestinationLost(p, r) || r.port != []) {
      var k :| Taken(p, r, k);
      var w := LostTakes(p, r, k);
      assert ZoneMatches(z, w);
    } else {
      forall k | ZoneMatches(z, k) ensures RuleNames(r, k) {
        assert Taken(p, r, k);
        NothingLost(p, r, k);
      }
    }
  }

  /** No entry is text that is no address; validation refuses those in both lists. */
  predicate Parsed(es: seq<Entry>) { forall e :: e in es ==> !e.Text? }

  /** The tag is an adopted tunnel, or an AmneziaWG endpoint that records addresses, none of them IPv6. */
  predicate StripsSix(p: Profile, tag: string) {
    var e := EndpointByID(p.endpoints, tag);
    e.Some? && (e.value.engine == External ||
      (e.value.engine == AmneziaWG && e.value.localAddresses != []
        && forall a :: a in e.value.localAddresses ==> ':' !in a))
  }

  lemma StripsIs(p: Profile, tag: string)
    ensures StripsSix(p, tag) <==> V4OnlyPosture(p, tag)
  {}

  /** What a caller can look up: the egress strips IPv6, and no entry is IPv4. */
  predicate AllStripped(p: Profile, tag: string, es: seq<Entry>) {
    KernelEgress(p, tag) && StripsSix(p, tag) && forall e :: e in es && e.Net? ==> e.net.v6
  }

  /** Of a parsed list nothing is left exactly when the egress strips IPv6 and every entry is IPv6. */
  lemma LostIff(p: Profile, tag: string, es: seq<Entry>)
    requires Parsed(es) && WellFormed(es) && HasEntry(es)
    ensures !AnyKept(p, tag, es) <==> AllStripped(p, tag, es)
  {
    StripsIs(p, tag);
    if AllStripped(p, tag, es) {
      forall a ensures !Kept(p, tag, es, a) {}
    } else {
      var e :| e in es && e.Net? && !(KernelEgress(p, tag) && V4OnlyPosture(p, tag) && e.net.v6);
      NetworkInside(e.net);
      assert Kept(p, tag, es, Network(e.net));
    }
  }

  /** So for a validated rule both losses can be read off the profile. */
  lemma LostWhen(p: Profile, r: Rule)
    requires Parsed(r.ipCidr) && WellFormed(r.ipCidr) && Parsed(r.sourceIP) && WellFormed(r.sourceIP)
    ensures SourceLost(p, r) <==> HasEntry(r.sourceIP) && AllStripped(p, r.outbound, r.sourceIP)
    ensures DestinationLost(p, r) <==>
      NamesDestination(r) && (HasEntry(r.ipCidr) ==> AllStripped(p, r.outbound, r.ipCidr))
  {
    if HasEntry(r.sourceIP) { LostIff(p, r.outbound, r.sourceIP); }
    if HasEntry(r.ipCidr) {
      LostIff(p, r.outbound, r.ipCidr);
    } else {
      forall a ensures !Kept(p, r.outbound, r.ipCidr, a) {}
    }
  }

  /** Conversely a zone takes all its rule names but what the posture strips. */
  lemma TakesNamed(p: Profile, z: Zone, r: Rule, k: Packet)
    requires TakesFor(p, z, r) && RuleNames(r, k) && (NamesDestination(r) || HasSourceMatcher(r))
    requires "" !in r.sourceMAC && "" !in r.sourceIface
    requires NamesDestination(r) ==> !Stripped(p, r.outbound, DstAddr(k))
    requires HasEntry(r.sourceIP) ==> !Stripped(p, r.outbound, SrcAddr(k))
    ensures ZoneMatches(z, k)
  {
    if NamesDestination(r) { assert Kept(p, r.outbound, r.ipCidr, DstAddr(k)); }
    if HasEntry(r.sourceIP) { assert Kept(p, r.outbound, r.sourceIP, SrcAddr(k)); }
    if r.sourceMAC != [] { assert r.sourceMAC[0] in r.sourceMAC; }
    if r.sourceIface != [] { assert r.sourceIface[0] in r.sourceIface; }
    assert Taken(p, r, k);
  }

  /** The families a rule's surviving addresses leave open. */
  ghost predicate OpenTo(p: Profile, r: Rule, v6: bool) {
    && (AnyKept(p, r.outbound, r.ipCidr) ==> exists a: Addr :: a.v6 == v6 && Kept(p, r.outbound, r.ipCidr, a))
    && (HasSourceMatcher(r) && AnyKept(p, r.outbound, r.sourceIP) ==>
          exists a: Addr :: a.v6 == v6 && Kept(p, r.outbound, r.sourceIP, a))
  }

  function SomeIface(names: seq<string>): string {
    if names == [] then "" else if EndsWith(names[0], '*') then names[0][..|names[0]| - 1] else names[0]
  }

  /** A zone takes some packet exactly when sources and destinations are left in one family. */
  lemma ReachedIff(p: Profile, r: Rule)
    ensures Reached(p, r) <==>
      (AnyKept(p, r.outbound, r.ipCidr) || Scoped(p, r)) && (OpenTo(p, r, false) || OpenTo(p, r, true))
  {
    if k :| Taken(p, r, k) {
      assert OpenTo(p, r, k.v6);
    }
    if (AnyKept(p, r.outbound, r.ipCidr) || Scoped(p, r)) && (OpenTo(p, r, false) || OpenTo(p, r, true)) {
      var k := OpenPacket(p, r, !OpenTo(p, r, false));
    }
  }

  lemma OpenPacket(p: Profile, r: Rule, v6: bool) returns (k: Packet)
    requires (AnyKept(p, r.outbound, r.ipCidr) || Scoped(p, r)) && OpenTo(p, r, v6)
    ensures Taken(p, r, k)
  {
    var d, s := Addr(v6, 0), Addr(v6, 0);
    if AnyKept(p, r.outbound, r.ipCidr) { d :| d.v6 == v6 && Kept(p, r.outbound, r.ipCidr, d); }
    if HasSourceMatcher(r) && AnyKept(p, r.outbound, r.sourceIP) {
      s :| s.v6 == v6 && Kept(p, r.outbound, r.sourceIP, s);
    }
    k := Packet(v6, s.n, d.n, SomeIface(r.sourceIface), if r.sourceMAC == [] then "" else r.sourceMAC[0], TCP,
                if r.sourcePort == [] then 0 else r.sourcePort[0], 0, {});
    assert DstAddr(k) == d && SrcAddr(k) == s;
    if r.sourceIface != [] { assert r.sourceIface[0] in r.sourceIface && IfaceMatches(r.sourceIface[0], k.iif); }
  }

  // ---- every zone of a plan ----

  /** An enabled rule the zone takes for; unscoped, the zone carries exactly the rule's kept addresses. */
  ghost predicate FromRule(p: Profile, z: Zone, r: Rule) {
    && r in p.rules && !r.disabled && !r.isDefault && TakesFor(p, z, r)
    && (!z.srcScoped ==> CarriesExactly(p, z, r.outbound, r.ipCidr))
  }

  /** An enabled list whose kept addresses are exactly the zone's. */
  ghost predicate FromList(p: Profile, z: Zone, l: RoutingList) {
    l in p.lists && l.enabled && CarriesExactly(p, z, l.outbound, l.manual + l.cidrCache)
  }

  ghost predicate Stems(p: Profile, z: Zone) { (exists r :: FromRule(p, z, r)) || (exists l :: FromList(p, z, l)) }

  ghost predicate AllStem(p: Profile, b: Build) { forall z :: z in b.zones ==> Stems(p, z) }

  lemma RuleStems(p: Profile, collect: bool, b: Build, r: Rule)
    requires ParsedProfile(p) && r in p.rules && AllStem(p, b)
    ensures AllStem(p, RuleStep(p, collect, b, r))
  {
    var n := RuleStep(p, collect, b, r);
    if n != b {
      var z := RuleAdds(p, collect, b, r);
      RuleZoneTakes(p, r, z.name, z.domains);
      KeptLists(p, r.outbound, r.ipCidr);
      assert FromRule(p, z, r);
    }
  }

  lemma ListStems(p: Profile, collect: bool, b: Build, l: RoutingList)
    requires ParsedProfile(p) && l in p.lists && AllStem(p, b)
    ensures AllStem(p, ListStep(p, collect, b, l))
  {
    var n, es := ListStep(p, collect, b, l), l.manual + l.cidrCache;
    if n != b {
      var z := n.zones[|b.zones|];
      assert n.zones == b.zones + [z];
      KeptLists(p, l.outbound, es);
      assert FromList(p, z, l);
    }
  }

  lemma {:induction false} RulesStem(p: Profile, collect: bool, k: nat)
    requires ParsedProfile(p) && k <= |p.rules|
    ensures AllStem(p, AfterRules(p, collect, k))
  {
    if k > 0 {
      RulesStem(p, collect, k - 1);
      RuleStems(p, collect, AfterRules(p, collect, k - 1), p.rules[k - 1]);
    }
  }

  lemma {:induction false} ListsStem(p: Profile, collect: bool, k: nat)
    requires ParsedProfile(p) && k <= |p.lists|
    ensures AllStem(p, AfterLists(p, collect, k))
  {
    if k == 0 {
      RulesStem(p, collect, |p.rules|);
    } else {
      ListsStem(p, collect, k - 1);
      ListStems(p, collect, AfterLists(p, collect, k - 1), p.lists[k - 1]);
    }
  }

  /**
   Every zone of the plan, scoped or not, takes exactly what the surviving matchers of one
   enabled rule accept, or carries exactly the kept addresses of one enabled list.
   */
  lemma ZonesStemFromProfile(p: Profile, opt: Options, z: Zone)
    requires ParsedProfile(p) && z in CompilePlan(p, opt).zones
    ensures Stems(p, z)
  {
    var collect := WithDefaults(opt).collectDomainZones;
    PlanZones(p, opt);
    var y :| y in Built(p, collect).zones && z == y.(mark := MarkByTag(CompilePlan(p, opt).egresses, y.tag));
    ListsStem(p, collect, |p.lists|);
    StampStems(p, y, z);
  }

  lemma StampStems(p: Profile, y: Zone, z: Zone)
    requires Stems(p, y) && z == y.(mark := z.mark)
    ensures Stems(p, z)
  {
    forall k ensures ZoneMatches(z, k) <==> ZoneMatches(y, k) {}
    if r :| FromRule(p, y, r) {
      assert FromRule(p, z, r);
    } else {
      var l :| FromList(p, y, l);
      assert FromList(p, z, l);
    }
  }

  // ---- and every rule and list its zone ----

  /** The rule is enabled, no default, aimed at something the kernel routes, and keeps a destination or a source. */
  ghost predicate KernelRule(p: Profile, r: Rule) {
    && r in p.rules && !r.disabled && !r.isDefault && ResolveEgress(p, r.outbound).Some?
    && (AnyKept(p, r.outbound, r.ipCidr) || Scoped(p, r))
  }

  ghost predicate KernelList(p: Profile, l: RoutingList) {
    && l in p.lists && l.enabled && ResolveEgress(p, l.outbound).Some?
    && AnyKept(p, l.outbound, l.manual + l.cidrCache)
  }

  lemma RuleAddsZone(p: Profile, collect: bool, b: Build, r: Rule)
    requires ParsedProfile(p) && KernelRule(p, r)
    ensures exists z :: z in RuleStep(p, collect, b, r).zones && FromRule(p, z, r)
  {
    KeptLists(p, r.outbound, r.ipCidr);
    KeptLists(p, r.outbound, r.sourceIP);
    assert r.ipCidr == [] ==> !AnyKept(p, r.outbound, r.ipCidr);
    assert RuleStep(p, collect, b, r) != b;
    var z := RuleAdds(p, collect, b, r);
    RuleZoneTakes(p, r, z.name, z.domains);
    assert RuleStep(p, collect, b, r).zones[|b.zones|] == z;
    assert FromRule(p, z, r);
  }

  lemma ListAddsZone(p: Profile, collect: bool, b: Build, l: RoutingList)
    requires ParsedProfile(p) && KernelList(p, l)
    ensures exists z :: z in ListStep(p, collect, b, l).zones && FromList(p, z, l)
  {
    var n, es := ListStep(p, collect, b, l), l.manual + l.cidrCache;
    KeptLists(p, l.outbound, es);
    assert n.zones == b.zones + [n.zones[|b.zones|]];
    assert n.zones[|b.zones|] in n.zones && FromList(p, n.zones[|b.zones|], l);
  }

  /** A built zone is in the plan, but for its mark. */
  lemma BuiltIsPlanned(p: Profile, opt: Options, y: Zone) returns (z: Zone)
    requires y in Built(p, WithDefaults(opt).collectDomainZones).zones
    ensures z in CompilePlan(p, opt).zones && z == y.(mark := z.mark)
  {
    PlanZones(p, opt);
    z := y.(mark := MarkByTag(CompilePlan(p, opt).egresses, y.tag));
  }

  /** Every such rule has a zone of its outbound in the plan that takes exactly what its surviving matchers accept. */
  lemma EveryRuleHasZone(p: Profile, opt: Options, r: Rule)
    requires ParsedProfile(p) && KernelRule(p, r)
    ensures exists z :: z in CompilePlan(p, opt).zones && FromRule(p, z, r)
  {
    var collect := WithDefaults(opt).collectDomainZones;
    var k :| 0 <= k < |p.rules| && p.rules[k] == r;
    RuleAddsZone(p, collect, AfterRules(p, collect, k), r);
    var y :| y in AfterRules(p, collect, k + 1).zones && FromRule(p, y, r);
    RuleZoneBuilt(p, collect, k, y);
    var z := BuiltIsPlanned(p, opt, y);
    MarkIsNoMatcher(p, y, z, r);
  }

  lemma RuleZoneBuilt(p: Profile, collect: bool, k: nat, y: Zone)
    requires k < |p.rules| && y in AfterRules(p, collect, k + 1).zones
    ensures y in Built(p, collect).zones
  {
    RuleZonesStay(p, collect, k + 1, |p.rules|);
    ListZonesStay(p, collect, 0, |p.lists|);
    PrefixMember(AfterRules(p, collect, k + 1).zones, AfterRules(p, collect, |p.rules|).zones, y);
    PrefixMember(AfterRules(p, collect, |p.rules|).zones, Built(p, collect).zones, y);
  }

  lemma MarkIsNoMatcher(p: Profile, y: Zone, z: Zone, r: Rule)
    requires FromRule(p, y, r) && z == y.(mark := z.mark)
    ensures FromRule(p, z, r)
  {
    forall w ensures ZoneMatches(z, w) <==> ZoneMatches(y, w) {}
  }

  lemma EveryListHasZone(p: Profile, opt: Options, l: RoutingList)
    requires ParsedProfile(p) && KernelList(p, l)
    ensures exists z :: z in CompilePlan(p, opt).zones && FromList(p, z, l)
  {
    var collect := WithDefaults(opt).collectDomainZones;
    var k :| 0 <= k < |p.lists| && p.lists[k] == l;
    ListAddsZone(p, collect, AfterLists(p, collect, k), l);
    var y :| y in AfterLists(p, collect, k + 1).zones && FromList(p, y, l);
    ListZonesStay(p, collect, k + 1, |p.lists|);
    PrefixMember(AfterLists(p, collect, k + 1).zones, Built(p, collect).zones, y);
    var z := BuiltIsPlanned(p, opt, y);
    MarkIsNoAddress(p, y, z, l);
  }

  lemma MarkIsNoAddress(p: Profile, y: Zone, z: Zone, l: RoutingList)
    requires FromList(p, y, l) && z == y.(mark := z.mark)
    ensures FromList(p, z, l)
  {}

  // ---- the three losses ----

  /**
   The sources can be lost: a rule for IPv6 clients and an IPv4 destination, aimed at a
   v4-only tunnel, builds a zone that takes that destination from every client.
   */
  lemma SourcesLost(p: Profile, collect: bool, b: Build, r: Rule, k: Packet)
    requires WellFormed(r.sourceIP) && WellFormed(r.ipCidr) && !r.disabled && !r.isDefault && HasEntry(r.sourceIP)
    requires r.sourceMAC == [] && r.sourceIface == [] && r.sourcePort == []
    requires AllStripped(p, r.outbound, r.sourceIP) && !k.v6 && Named(r.ipCidr, DstAddr(k))
    ensures var n := RuleStep(p, collect, b, r);
      n != b && ZoneMatches(n.zones[|b.zones|], k) && !n.zones[|b.zones|].srcScoped && !RuleNames(r, k)
  {
    KernelIsTunnel(p, r.outbound);
    KeptLists(p, r.outbound, r.ipCidr);
    assert Kept(p, r.outbound, r.ipCidr, DstAddr(k));
    forall a ensures !Kept(p, r.outbound, r.sourceIP, a) {}
    assert RuleStep(p, collect, b, r) != b;
    var z := RuleStepTakes(p, collect, b, r);
    assert Taken(p, r, k);
  }

  /**
   The destinations can be lost: a rule for IPv6 destinations of some client, aimed at a
   v4-only tunnel, builds a zone that takes every IPv4 destination of that client.
   */
  lemma DestinationsLost(p: Profile, collect: bool, b: Build, r: Rule, k: Packet)
    requires WellFormed(r.sourceIP) && WellFormed(r.ipCidr) && !r.disabled && !r.isDefault && HasEntry(r.ipCidr)
    requires AllStripped(p, r.outbound, r.ipCidr) && Scoped(p, r) && !k.v6 && SourceTaken(p, r, k)
    ensures var n := RuleStep(p, collect, b, r);
      n != b && ZoneMatches(n.zones[|b.zones|], k) && !RuleNames(r, k)
  {
    KernelIsTunnel(p, r.outbound);
    KeptLists(p, r.outbound, r.sourceIP);
    forall a ensures !Kept(p, r.outbound, r.ipCidr, a) {}
    assert RuleStep(p, collect, b, r) != b;
    var z := RuleStepTakes(p, collect, b, r);
    assert Taken(p, r, k);
  }

  const TUNNEL := Endpoint("exit", External, WireGuard, Blank, Blank, true, "tun0", [])
  const ONE4 := Net(Prefix(false, 1, 32))
  const ONE6 := Net(Prefix(true, 1, 128))

  /** A rule of some clients for some destinations through the v4-only tunnel. */
  function ExitRule(dests: seq<Entry>, domains: seq<string>, sources: seq<Entry>, macs: seq<string>): Rule {
    Rule("one", [], domains, [], [], dests, [], sources, macs, [], [], false, false, "exit")
  }

  function ExitProfile(r: Rule): Profile { Profile([TUNNEL], [], [r], []) }

  function FirstZones(r: Rule): seq<Zone> { RuleStep(ExitProfile(r), false, Build([], {}, {}), r).zones }

  /** A packet of the client with that MAC. */
  function FromClient(src: nat, dst: nat, mac: string): Packet { Packet(false, src, dst, "br0", mac, TCP, 0, 443, {}) }

  ghost predicate TakesUnnamed(r: Rule, k: Packet) {
    |FirstZones(r)| == 1 && ZoneMatches(FirstZones(r)[0], k) && !RuleNames(r, k)
  }

  lemma ExitStrips(r: Rule)
    ensures KernelEgress(ExitProfile(r), "exit") && V4OnlyPosture(ExitProfile(r), "exit")
    ensures WellFormed([ONE4]) && WellFormed([ONE6]) && Named([ONE4], Addr(false, 1))
    ensures HasEntry([ONE4]) && HasEntry([ONE6])
    ensures AllStripped(ExitProfile(r), "exit", [ONE6]) && WellFormed([]) && !HasEntry([])
  {
    var p := ExitProfile(r);
    assert EndpointByID(p.endpoints, "exit") == Some(TUNNEL);
    assert KernelMember(p, "exit");
    assert Pow2(0) == 1;
    assert ONE4 in [ONE4] && ONE6 in [ONE6];
  }

  /** An IPv6 client alone: every client's packets to the IPv4 destination are taken. */
  lemma SourceExample(src: nat)
    ensures TakesUnnamed(ExitRule([ONE4], [], [ONE6], []), FromClient(src, 1, "m"))
  {
    var r, k := ExitRule([ONE4], [], [ONE6], []), FromClient(src, 1, "m");
    ExitStrips(r);
    SourcesLost(ExitProfile(r), false, Build([], {}, {}), r, k);
  }

  /** An IPv6 client with its MAC: the zone stays scoped, and takes every source address of that MAC. */
  lemma SourceAndMacExample(src: nat)
    ensures TakesUnnamed(ExitRule([ONE4], [], [ONE6], ["m"]), FromClient(src, 1, "m"))
  {
    var r, k := ExitRule([ONE4], [], [ONE6], ["m"]), FromClient(src, 1, "m");
    var p := ExitProfile(r);
    ExitStrips(r);
    KernelIsTunnel(p, "exit");
    forall a ensures !Kept(p, "exit", [ONE6], a) {}
    assert Kept(p, "exit", [ONE4], DstAddr(k));
    KeptLists(p, "exit", [ONE4]);
    var z := RuleStepTakes(p, false, Build([], {}, {}), r);
    assert "m" in r.sourceMAC && Taken(p, r, k);
  }

  /** An IPv6 destination for one MAC: every IPv4 destination of that client is taken. */
  lemma DestinationExample(dst: nat)
    ensures TakesUnnamed(ExitRule([ONE6], [], [], ["m"]), FromClient(0, dst, "m"))
  {
    var r, k := ExitRule([ONE6], [], [], ["m"]), FromClient(0, dst, "m");
    var p := ExitProfile(r);
    ExitStrips(r);
    assert "m" in r.sourceMAC;
    forall a ensures !Kept(p, "exit", [], a) {}
    DestinationsLost(p, false, Build([], {}, {}), r, k);
  }

  /** A domain for one MAC: the kernel takes every destination of that client. */
  lemma DomainExample(dst: nat)
    ensures TakesUnnamed(ExitRule([], ["example.org"], [], ["m"]), FromClient(0, dst, "m"))
  {
    var r, k := ExitRule([], ["example.org"], [], ["m"]), FromClient(0, dst, "m");
    var p := ExitProfile(r);
    ExitStrips(r);
    KernelIsTunnel(p, "exit");
    assert "m" in r.sourceMAC && "example.org" in r.domain;
    forall a ensures !Kept(p, "exit", [], a) {}
    var z := RuleStepTakes(p, false, Build([], {}, {}), r);
    assert Taken(p, r, k);
  }
}
