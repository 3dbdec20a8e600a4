/**
 What the generated sing-box route does with each rule, list and default of a valid profile,
 in the profile's own fields: its final, which rules and lists it refers to, and that every
 address a rule or list names is served by sing-box or by the kernel.
 */
module SingboxRoute {
  import opened Cidr
  import opened Profiles
  import opened Compile
  import opened Validate
  import opened PlanFacts
  import opened Hybrid
  import opened Emission

  /** Builtin targets are recognised in any case; other tags are taken as they are. */
  lemma BuiltinsFoldCase()
    ensures Canonical("Direct") == "direct" && Canonical("BLOCK") == "block" && Canonical("Awg") == "Awg"
  {}

  lemma {:induction false} FinalIsDefault(p: Profile, k: nat, i: nat)
    requires i < k <= |p.rules| && ActiveDefault(p.rules[i])
    requires forall j :: 0 <= j < |p.rules| && j != i ==> !ActiveDefault(p.rules[j])
    ensures var target := Canonical(p.rules[i].outbound);
      FinalAfter(p, k) == if target == BLOCK then DIRECT else target
  {
    if i < k - 1 {
      FinalIsDefault(p, k - 1, i);
    } else {
      FinalWithout(p, i);
    }
  }

  lemma {:induction false} FinalWithout(p: Profile, k: nat)
    requires k <= |p.rules| && forall j :: 0 <= j < k ==> !ActiveDefault(p.rules[j])
    ensures FinalAfter(p, k) == DIRECT
  {
    if k > 0 { FinalWithout(p, k - 1); }
  }

  /**
   Unmatched traffic follows the one enabled default rule: its target, or the terminal reject
   when that is block; without one it goes direct.
   */
  lemma FinalFollowsDefault(c: Checks, p: Profile)
    requires Valid(c, p)
    ensures forall r :: r in p.rules && r.isDefault && !r.disabled ==>
      && Final(p) == (if Lower(r.outbound) in {"block", "direct"} then "direct" else r.outbound)
      && ((exists b :: b in p.rules && BlocksRest(b)) <==> Lower(r.outbound) == "block")
    ensures (forall r :: r in p.rules ==> r.disabled || !r.isDefault) ==>
      Final(p) == "direct" && forall b :: b in p.rules ==> !BlocksRest(b)
  {
    forall r | r in p.rules && r.isDefault && !r.disabled
      ensures Final(p) == (if Lower(r.outbound) in {"block", "direct"} then "direct" else r.outbound)
      ensures (exists b :: b in p.rules && BlocksRest(b)) <==> Lower(r.outbound) == "block"
    {
      var i :| 0 <= i < |p.rules| && p.rules[i] == r;
      assert forall j :: 0 <= j < |p.rules| && j != i ==> !ActiveDefault(p.rules[j]);
      FinalIsDefault(p, |p.rules|, i);
      if b :| b in p.rules && BlocksRest(b) { assert b == r; }
    }
    if forall r :: r in p.rules ==> r.disabled || !r.isDefault { FinalWithout(p, |p.rules|); }
  }

  // ---- what is referred to, in the profile's own fields ----

  /** The tag leads to a kernel tunnel: an endpoint with a device, or a group with such a member. */
  ghost predicate LeadsToTunnel(p: Profile, tag: string) { exists iface :: LeadsTo(p, tag, Tunnel, iface) }

  lemma TunnelIsKernel(p: Profile, tag: string)
    ensures KernelEgress(p, tag) <==> LeadsToTunnel(p, tag)
  {
    KernelIsTunnel(p, tag);
    if ResolveEgress(p, tag).Some? { ResolvedLeads(p, tag); }
    var g := GroupByID(p.groups, tag);
    if LeadsToTunnel(p, tag) && EndpointByID(p.endpoints, tag).None? {
      var iface :| LeadsTo(p, tag, Tunnel, iface);
      var j :| 0 <= j < |g.value.members| && MemberHasDevice(p, g.value.members[j], iface);
      assert g.value.members[j] in g.value.members && KernelMember(p, g.value.members[j]);
    }
  }

  /** The rule has nothing but addresses. */
  predicate OnlyAddresses(r: Rule) {
    r.ipCidr != [] && r == Rule(r.id, [], [], [], [], r.ipCidr, [], [], [], [], [], r.isDefault, r.disabled, r.outbound)
  }

  lemma OnlyAddressesAre(r: Rule)
    ensures OnlyAddresses(r) <==> IpOnlyRule(r)
  {}

  /** Some matcher sing-box can express is not blank. */
  predicate SingboxMatches(r: Rule) {
    || (exists s :: s in r.domainSuffix + r.domain + r.geoSite + r.geoIP && s != "")
    || (exists e :: e in r.ipCidr + r.sourceIP && e != Blank)
    || r.port + r.sourcePort != []
  }

  lemma MatchersAre(r: Rule)
    ensures Expressible(r) <==> SingboxMatches(r)
  {
    var names := r.domainSuffix + r.domain + r.geoSite + r.geoIP;
    assert forall s :: s in names <==> s in r.domainSuffix || s in r.domain || s in r.geoSite || s in r.geoIP;
    assert forall e :: e in r.ipCidr + r.sourceIP <==> e in r.ipCidr || e in r.sourceIP;
  }

  /**
   The route refers to a rule's target exactly when the rule is enabled, no default, not a
   block, has a matcher sing-box can express, and is not an address rule for a kernel tunnel.
   */
  lemma RuleRoutedIff(p: Profile, r: Rule)
    ensures RuleRouted(p, r) <==>
      && !r.disabled && !r.isDefault && Lower(r.outbound) != "block" && SingboxMatches(r)
      && !(OnlyAddresses(r) && LeadsToTunnel(p, r.outbound))
  {
    MatchersAre(r);
    OnlyAddressesAre(r);
    TunnelIsKernel(p, r.outbound);
  }

  /** The list has an entry that is neither blank nor a comment. */
  predicate HasManual(l: RoutingList) {
    exists e :: e in l.manual && (e.Net? || (e.Text? && !("#" <= e.text)))
  }

  /** The list has addresses, written out, and nothing else. */
  predicate OnlyAddressList(l: RoutingList) {
    && l.source == "" && (exists e :: e in l.manual && e.Net?)
    && forall e :: e in l.manual ==> e.Net? || e.Blank? || "#" <= e.text
  }

  lemma PartsAre(l: RoutingList)
    ensures var parts := SplitDomainsIPs(l.manual);
      && (parts.domains != [] || parts.ips != [] <==> HasManual(l))
      && (l.source == "" && parts.domains == [] && parts.ips != [] <==> OnlyAddressList(l))
  {
    var parts := SplitDomainsIPs(l.manual);
    SplitNames(l.manual);
    if parts.ips != [] { assert parts.ips[0] in parts.ips; }
    if e :| e in l.manual && e.Net? { assert e == Net(e.net) && e.net in parts.ips; }
  }

  /** The same for a list: enabled, not a block, with a source or an entry, and no address list for a kernel tunnel. */
  lemma ListRoutedIff(p: Profile, l: RoutingList)
    ensures ListRouted(p, l) <==>
      && l.enabled && Lower(l.outbound) != "block" && (l.source != "" || HasManual(l))
      && !(OnlyAddressList(l) && LeadsToTunnel(p, l.outbound))
  {
    PartsAre(l);
    TunnelIsKernel(p, l.outbound);
  }

  // ---- nothing falls between the two planes ----

  /**
   Every address an enabled rule names for a target other than block is served: the route
   refers to that target, or a kernel zone of it carries the rule's addresses. The one
   exception is an IPv6 address stripped by the v4-only posture of a kernel tunnel.
   */
  lemma RuleServed(p: Profile, opt: Options, r: Rule, a: Addr)
    requires ParsedProfile(p) && r in p.rules && !r.disabled && !r.isDefault && Lower(r.outbound) != "block"
    requires Named(r.ipCidr, a) && !Stripped(p, r.outbound, a)
    ensures Matched(p, Canonical(r.outbound)) || InPlan(p, opt, r.outbound, r.ipCidr)
  {
    RuleRoutedIff(p, r);
    TunnelIsKernel(p, r.outbound);
    var e :| e in r.ipCidr && e.Net? && Contains(e.net, a);
    assert e in r.ipCidr + r.sourceIP;
    if !RuleRouted(p, r) { DroppedRuleCarried(p, opt, r, a); }
  }

  /** And every address written into an enabled list. */
  lemma ListServed(p: Profile, opt: Options, l: RoutingList, a: Addr)
    requires ParsedProfile(p) && l in p.lists && l.enabled && Lower(l.outbound) != "block"
    requires Named(l.manual, a) && !Stripped(p, l.outbound, a)
    ensures Matched(p, Canonical(l.outbound)) || InPlan(p, opt, l.outbound, l.manual + l.cidrCache)
  {
    ListRoutedIff(p, l);
    TunnelIsKernel(p, l.outbound);
    PartsAre(l);
    var e :| e in l.manual && e.Net? && Contains(e.net, a);
    assert e in l.manual + l.cidrCache;
    if !ListRouted(p, l) { DroppedListCarried(p, opt, l, a); }
  }
}
