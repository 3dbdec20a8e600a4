/**
 The hybrid split of `internal/generator/singbox.go`: which rules and lists leave sing-box
 because the kernel plane carries them. The split is decided by the generator and carried out
 by the compiler, so the results here relate the two: what one drops, the other routes.
 */
module Hybrid {
  import opened Cidr
  import opened Profiles
  import opened Compile
  import opened Datapath
  import opened PlanFacts

  // ---- classification ----

  predicate KernelMember(p: Profile, m: string) {
    var e := EndpointByID(p.endpoints, m);
    e.Some? && KernelIface(e.value) != ""
  }

  /** `kernelEgress`: a kernel-plane endpoint, or a group with one as a direct member. */
  predicate KernelEgress(p: Profile, tag: string) {
    if tag == DIRECT || tag == BLOCK || tag == "" then false
    else if EndpointByID(p.endpoints, tag).Some? then KernelMember(p, tag)
    else
      var g := GroupByID(p.groups, tag);
      g.Some? && exists m :: m in g.value.members && KernelMember(p, m)
  }

  method KernelEgressScan(p: Profile, tag: string) returns (kernel: bool)
    ensures kernel == KernelEgress(p, tag)
  {
    if tag == DIRECT || tag == BLOCK || tag == "" {
      return false;
    }
    var e := EndpointByID(p.endpoints, tag);
    if e.Some? {
      return KernelIface(e.value) != "";
    }
    var g := GroupByID(p.groups, tag);
    if g.Some? {
      for i := 0 to |g.value.members|
        invariant forall k :: 0 <= k < i ==> !KernelMember(p, g.value.members[k])
      {
        var me := EndpointByID(p.endpoints, g.value.members[i]);
        if me.Some? && KernelIface(me.value) != "" {
          assert KernelMember(p, g.value.members[i]);
          return true;
        }
      }
    }
    return false;
  }

  lemma {:induction false} FirstMemberExists(p: Profile, members: seq<string>)
    ensures FirstKernelMember(p, members).Some? <==> exists m :: m in members && KernelMember(p, m)
  {
    if members != [] {
      FirstMemberExists(p, members[1..]);
      assert members == [members[0]] + members[1..];
      if KernelMember(p, members[0]) { assert members[0] in members; }
    }
  }

  /** The generator's test and the compiler's resolution agree on every tag. */
  lemma KernelIsTunnel(p: Profile, tag: string)
    ensures KernelEgress(p, tag) <==> ResolveEgress(p, tag).Some? && ResolveEgress(p, tag).value.kind == Tunnel
  {
    var g := GroupByID(p.groups, tag);
    if g.Some? { FirstMemberExists(p, g.value.members); }
  }

  /** `ipOnlyKernelRule`: address matchers and no other field at all. */
  predicate IpOnlyRule(r: Rule) {
    && r.ipCidr != [] && r.domain == [] && r.domainSuffix == [] && r.geoSite == [] && r.geoIP == [] && r.port == []
    && r.sourceIP == [] && r.sourceMAC == [] && r.sourceIface == [] && r.sourcePort == []
  }

  datatype Parts = Parts(domains: seq<string>, ips: seq<Prefix>)

  function SplitStep(acc: Parts, e: Entry): Parts {
    match e
    case Blank => acc
    case Net(n) => acc.(ips := acc.ips + [n])
    case Text(s) => if "#" <= s then acc else acc.(domains := acc.domains + [s])
  }

  /** `splitDomainsIPs`; a comment is text that starts with a hash. */
  function SplitDomainsIPs(es: seq<Entry>): Parts {
    if es == [] then Parts([], []) else SplitStep(SplitDomainsIPs(es[..|es| - 1]), es[|es| - 1])
  }

  method SplitScan(es: seq<Entry>) returns (parts: Parts)
    ensures parts == SplitDomainsIPs(es)
  {
    parts := Parts([], []);
    for i := 0 to |es|
      invariant parts == SplitDomainsIPs(es[..i])
    {
      assert es[..i + 1][..i] == es[..i];
      match es[i]
      case Blank =>
      case Net(n) => parts := parts.(ips := parts.ips + [n]);
      case Text(s) => if !("#" <= s) { parts := parts.(domains := parts.domains + [s]); }
    }
    assert es[..|es|] == es;
  }

  lemma {:induction false} SplitNames(es: seq<Entry>)
    ensures forall n :: n in SplitDomainsIPs(es).ips <==> Net(n) in es
    ensures SplitDomainsIPs(es).domains == [] <==> forall e :: e in es && e.Text? ==> "#" <= e.text
  {
    if es != [] {
      var n := |es| - 1;
      SplitNames(es[..n]);
      assert es == es[..n] + [es[n]];
    }
  }

  /** The rule is left out of sing-box: `routeFrom` and `hybridReachable` use the same test. */
  predicate DroppedRule(p: Profile, r: Rule) {
    !r.disabled && !r.isDefault && KernelEgress(p, r.outbound) && IpOnlyRule(r)
  }

  /** The list is left out of sing-box: no remote source, no domain, some address. */
  predicate DroppedList(p: Profile, l: RoutingList) {
    var parts := SplitDomainsIPs(l.manual);
    l.enabled && KernelEgress(p, l.outbound) && l.source == "" && parts.domains == [] && parts.ips != []
  }

  // ---- what the kernel covers ----

  /** The address is stripped by the v4-only posture of its egress. */
  predicate Stripped(p: Profile, tag: string, a: Addr) { a.v6 && KernelEgress(p, tag) && V4OnlyPosture(p, tag) }

  /** An unscoped zone holds exactly the addresses an entry list names, less the stripped ones. */
  ghost predicate CarriesExactly(p: Profile, z: Zone, tag: string, es: seq<Entry>) {
    && z.tag == tag && !z.srcScoped
    && forall a: Addr :: Covered(if a.v6 then z.v6 else z.v4, a) <==> Named(es, a) && !Stripped(p, tag, a)
  }

  lemma AsEntriesNamed(ps: seq<Prefix>)
    ensures forall a :: Named(AsEntries(ps), a) <==> Covered(ps, a)
    ensures AllMasked(ps) ==> WellFormed(AsEntries(ps))
  {
    var es := AsEntries(ps);
    forall a ensures Named(es, a) <==> Covered(ps, a) {
      if Named(es, a) {
        var e :| e in es && e.Net? && Contains(e.net, a);
        assert e.net in ps;
      }
      if Covered(ps, a) {
        var p :| p in ps && Contains(p, a);
        var i :| 0 <= i < |ps| && ps[i] == p;
        assert es[i] in es;
      }
    }
  }

  lemma KeptNamed(p: Profile, tag: string, es: seq<Entry>)
    requires WellFormed(es)
    ensures WellFormed(KeptEntries(p, tag, es))
    ensures forall a :: Named(KeptEntries(p, tag, es), a) <==> Named(es, a) && !Stripped(p, tag, a)
  {
    KernelIsTunnel(p, tag);
    ClassifyCoversNamed(es);
    AsEntriesNamed(Classify(es).v4);
  }

  /** Adding an unscoped zone for some entries puts one there that covers what they name. */
  lemma AddedZone(p: Profile, b: Build, collect: bool, name: string, tag: string, es: seq<Entry>)
    requires WellFormed(es)
    ensures var n := AddZone(b, collect, name, tag, KeptEntries(p, tag, es), None);
      && (n == b || exists z :: CarriesExactly(p, z, tag, es) && n.zones == b.zones + [z])
      && (n == b ==> forall a :: Named(es, a) ==> Stripped(p, tag, a))
  {
    var kept := KeptEntries(p, tag, es);
    var n := AddZone(b, collect, name, tag, kept, None);
    KeptNamed(p, tag, es);
    ClassifyCoversNamed(kept);
    if n == b {
      AddZoneGrows(b, collect, name, tag, kept, None);
      forall a | Named(es, a) ensures Stripped(p, tag, a) {
        assert !Covered([], a);
      }
    } else {
      var z := n.zones[|b.zones|];
      assert n.zones == b.zones + [z];
      assert CarriesExactly(p, z, tag, es);
    }
  }

  lemma AddZoneGrows(b: Build, collect: bool, name: string, tag: string, es: seq<Entry>, src: Option<Source>)
    ensures var n := AddZone(b, collect, name, tag, es, src); n == b || |n.zones| == |b.zones| + 1
    ensures AddZone(b, collect, name, tag, es, src) == b && src.None? ==> Classify(es).v4 == [] && Classify(es).v6 == []
    ensures b.zones <= AddZone(b, collect, name, tag, es, src).zones
  {}

  lemma {:induction false} RuleZonesStay(p: Profile, collect: bool, j: nat, k: nat)
    requires j <= k <= |p.rules|
    ensures AfterRules(p, collect, j).zones <= AfterRules(p, collect, k).zones
  {
    if j < k {
      RuleZonesStay(p, collect, j, k - 1);
      var r, b := p.rules[k - 1], AfterRules(p, collect, k - 1);
      AddZoneGrows(b, collect, "rule_" + NftName(r.id), r.outbound,
          KeptEntries(p, r.outbound, r.ipCidr), RuleSource(p, r));
    }
  }

  lemma {:induction false} ListZonesStay(p: Profile, collect: bool, j: nat, k: nat)
    requires j <= k <= |p.lists|
    ensures AfterLists(p, collect, j).zones <= AfterLists(p, collect, k).zones
  {
    if j < k {
      ListZonesStay(p, collect, j, k - 1);
      var l, b := p.lists[k - 1], AfterLists(p, collect, k - 1);
      AddZoneGrows(b, collect, "list_" + NftName(l.id), l.outbound,
          KeptEntries(p, l.outbound, l.manual + l.cidrCache), None);
    }
  }

  /** Some zone of the compiled plan carries exactly these entries. */
  ghost predicate InPlan(p: Profile, opt: Options, tag: string, es: seq<Entry>) {
    exists z :: z in CompilePlan(p, opt).zones && CarriesExactly(p, z, tag, es)
  }

  lemma BuiltInPlan(p: Profile, opt: Options, z: Zone, tag: string, es: seq<Entry>)
    requires z in Built(p, WithDefaults(opt).collectDomainZones).zones && CarriesExactly(p, z, tag, es)
    ensures InPlan(p, opt, tag, es)
  {
    var pl := CompilePlan(p, opt);
    PlanZones(p, opt);
    var y := z.(mark := MarkByTag(pl.egresses, z.tag));
    assert y in pl.zones && CarriesExactly(p, y, tag, es);
  }

  lemma PrefixMember<T>(a: seq<T>, b: seq<T>, x: T)
    requires a <= b && x in a
    ensures x in b
  {}

  /** The zone a dropped rule adds when the compiler reaches it. */
  lemma RuleZone(p: Profile, collect: bool, k: nat, a: Addr) returns (z: Zone)
    requires ParsedProfile(p) && k < |p.rules| && DroppedRule(p, p.rules[k])
    requires Named(p.rules[k].ipCidr, a) && !Stripped(p, p.rules[k].outbound, a)
    ensures CarriesExactly(p, z, p.rules[k].outbound, p.rules[k].ipCidr)
    ensures z in AfterRules(p, collect, k + 1).zones
  {
    var r, b := p.rules[k], AfterRules(p, collect, k);
    assert r in p.rules;
    KernelIsTunnel(p, r.outbound);
    KeptNamed(p, r.outbound, r.ipCidr);
    assert Named(KeptEntries(p, r.outbound, r.ipCidr), a);
    AddedZone(p, b, collect, "rule_" + NftName(r.id), r.outbound, r.ipCidr);
    var n := AddZone(b, collect, "rule_" + NftName(r.id), r.outbound, KeptEntries(p, r.outbound, r.ipCidr), None);
    assert AfterRules(p, collect, k + 1) == n;
    z :| CarriesExactly(p, z, r.outbound, r.ipCidr) && n.zones == b.zones + [z];
  }

  /**
   A rule dropped from sing-box is in the kernel plan: one zone of the same outbound carries
   exactly its addresses, except IPv6 ones stripped by the v4-only posture.
   */
  lemma DroppedRuleCarried(p: Profile, opt: Options, r: Rule, a: Addr)
    requires ParsedProfile(p) && r in p.rules && DroppedRule(p, r) && Named(r.ipCidr, a) && !Stripped(p, r.outbound, a)
    ensures InPlan(p, opt, r.outbound, r.ipCidr)
  {
    var collect := WithDefaults(opt).collectDomainZones;
    var k :| 0 <= k < |p.rules| && p.rules[k] == r;
    var z := RuleZone(p, collect, k, a);
    RuleZonesStay(p, collect, k + 1, |p.rules|);
    ListZonesStay(p, collect, 0, |p.lists|);
    PrefixMember(AfterRules(p, collect, k + 1).zones, AfterRules(p, collect, |p.rules|).zones, z);
    PrefixMember(AfterRules(p, collect, |p.rules|).zones, Built(p, collect).zones, z);
    BuiltInPlan(p, opt, z, r.outbound, r.ipCidr);
  }

  lemma ListZone(p: Profile, collect: bool, k: nat, a: Addr) returns (z: Zone)
    requires ParsedProfile(p) && k < |p.lists| && DroppedList(p, p.lists[k])
    requires Named(p.lists[k].manual + p.lists[k].cidrCache, a) && !Stripped(p, p.lists[k].outbound, a)
    ensures CarriesExactly(p, z, p.lists[k].outbound, p.lists[k].manual + p.lists[k].cidrCache)
    ensures z in AfterLists(p, collect, k + 1).zones
  {
    var l, b := p.lists[k], AfterLists(p, collect, k);
    var es := l.manual + l.cidrCache;
    assert l in p.lists && WellFormed(es);
    KernelIsTunnel(p, l.outbound);
    KeptNamed(p, l.outbound, es);
    assert Named(KeptEntries(p, l.outbound, es), a);
    AddedZone(p, b, collect, "list_" + NftName(l.id), l.outbound, es);
    var n := AddZone(b, collect, "list_" + NftName(l.id), l.outbound, KeptEntries(p, l.outbound, es), None);
    assert AfterLists(p, collect, k + 1) == n;
    z :| CarriesExactly(p, z, l.outbound, es) && n.zones == b.zones + [z];
  }

  /** The same for a list, whose zone also carries its cached feed. */
  lemma DroppedListCarried(p: Profile, opt: Options, l: RoutingList, a: Addr)
    requires ParsedProfile(p) && l in p.lists && DroppedList(p, l)
    requires Named(l.manual + l.cidrCache, a) && !Stripped(p, l.outbound, a)
    ensures InPlan(p, opt, l.outbound, l.manual + l.cidrCache)
  {
    var collect := WithDefaults(opt).collectDomainZones;
    var k :| 0 <= k < |p.lists| && p.lists[k] == l;
    var z := ListZone(p, collect, k, a);
    ListZonesStay(p, collect, k + 1, |p.lists|);
    PrefixMember(AfterLists(p, collect, k + 1).zones, Built(p, collect).zones, z);
    BuiltInPlan(p, opt, z, l.outbound, l.manual + l.cidrCache);
  }
}
