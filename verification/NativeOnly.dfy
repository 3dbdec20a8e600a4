/**
 The native-only verdict of `internal/generator/native_only.go`: sing-box may stay off. When it
 is given, every address of every enabled rule and list that names a tunnel or group is in a
 kernel zone of that outbound, so nothing is lost with sing-box.
 */
module NativeOnly {
  import opened Cidr
  import opened Profiles
  import opened Compile
  import opened Validate
  import opened Hybrid
  import opened Emission
  import opened SingboxRoute

  /** `EndpointNeedsSingbox`. */
  predicate NeedsSingbox(e: Endpoint) {
    match e.engine
    case External => false
    case AmneziaWG => false
    case SingBox => e.protocol != WireGuard
    case _ => true
  }

  predicate ProfileNativeOnly(p: Profile) {
    && (exists e :: e in p.endpoints && e.enabled)
    && (forall e :: e in p.endpoints && e.enabled ==> !NeedsSingbox(e))
  }

  method ProfileNativeOnlyScan(p: Profile) returns (native: bool)
    ensures native == ProfileNativeOnly(p)
  {
    var enabled := 0;
    for i := 0 to |p.endpoints|
      invariant enabled >= 0 && (enabled > 0 <==> exists k :: 0 <= k < i && p.endpoints[k].enabled)
      invariant forall k :: 0 <= k < i && p.endpoints[k].enabled ==> !NeedsSingbox(p.endpoints[k])
    {
      if p.endpoints[i].enabled {
        enabled := enabled + 1;
        if NeedsSingbox(p.endpoints[i]) {
          return false;
        }
      }
    }
    return enabled > 0;
  }

  predicate HasDomainOrGeo(r: Rule) { r.domain != [] || r.domainSuffix != [] || r.geoSite != [] || r.geoIP != [] }

  /** `anyV6CIDR`: an entry whose text has a colon. */
  predicate AnyV6(es: seq<Entry>) { exists e :: e in es && ((e.Net? && e.net.v6) || (e.Text? && ':' in e.text)) }

  predicate ListHasV6(l: RoutingList) { AnyV6(l.manual) || AnyV6(l.cidrCache) }

  predicate DefaultIsWan(r: Rule) { r.isDefault ==> Canonical(r.outbound) == DIRECT || Canonical(r.outbound) == "" }

  predicate ListIsPlain(l: RoutingList) { l.source == "" && SplitDomainsIPs(l.manual).domains == [] }

  predicate UsesExternal(p: Profile) { exists e :: e in p.endpoints && e.enabled && e.engine == External }

  /** `DatapathNativeOnly`, condition by condition; nothing is reachable exactly when there is no root. */
  predicate Verdict(p: Profile, mode: string) {
    && ProfileNativeOnly(p) && mode == "fast"
    && (forall r :: r in p.rules ==> DefaultIsWan(r))
    && Roots(p) == {}
    && (forall r :: r in p.rules ==> !HasDomainOrGeo(r))
    && (forall l :: l in p.lists && l.enabled ==> ListIsPlain(l))
    && (UsesExternal(p) ==>
      && (forall r :: r in p.rules ==> !AnyV6(r.ipCidr))
      && (forall l :: l in p.lists && l.enabled ==> !ListHasV6(l)))
  }

  lemma NothingReached(p: Profile, reach: set<string>)
    requires LeastClosed(p, Roots(p), reach)
    ensures reach == {} <==> Roots(p) == {}
  {
    if Roots(p) == {} { assert Closed(p, {}); }
  }

  method DatapathNativeOnly(p: Profile, mode: string) returns (native: bool)
    ensures native == Verdict(p, mode)
  {
    native := ProfileNativeOnlyScan(p);
    if !native || mode != "fast" {
      return false;
    }
    native := RulesAllow(p);
    if !native {
      return;
    }
    var reach := HybridReachable(p);
    NothingReached(p, reach);
    if reach != {} {
      return false;
    }
    native := NoDomains(p);
    if !native {
      return;
    }
    native := NoStrippedV6(p);
  }

  /** The loop over default rules. */
  method RulesAllow(p: Profile) returns (ok: bool)
    ensures ok <==> forall r :: r in p.rules ==> DefaultIsWan(r)
  {
    for i := 0 to |p.rules|
      invariant forall k :: 0 <= k < i ==> DefaultIsWan(p.rules[k])
    {
      if !DefaultIsWan(p.rules[i]) {
        assert p.rules[i] in p.rules;
        return false;
      }
    }
    return true;
  }

  method NoDomains(p: Profile) returns (ok: bool)
    ensures ok <==>
      (forall r :: r in p.rules ==> !HasDomainOrGeo(r)) && forall l :: l in p.lists && l.enabled ==> ListIsPlain(l)
  {
    for i := 0 to |p.rules|
      invariant forall k :: 0 <= k < i ==> !HasDomainOrGeo(p.rules[k])
    {
      if HasDomainOrGeo(p.rules[i]) {
        assert p.rules[i] in p.rules;
        return false;
      }
    }
    for i := 0 to |p.lists|
      invariant forall k :: 0 <= k < i && p.lists[k].enabled ==> ListIsPlain(p.lists[k])
    {
      if p.lists[i].enabled {
        var parts := SplitScan(p.lists[i].manual);
        if p.lists[i].source != "" || parts.domains != [] {
          assert p.lists[i] in p.lists;
          return false;
        }
      }
    }
    return true;
  }

  /** The flag over external endpoints, and the IPv6 scan it guards. */
  method NoStrippedV6(p: Profile) returns (ok: bool)
    ensures ok <==> (UsesExternal(p) ==>
      && (forall r :: r in p.rules ==> !AnyV6(r.ipCidr))
      && (forall l :: l in p.lists && l.enabled ==> !ListHasV6(l)))
  {
    var hasExternal := false;
    for i := 0 to |p.endpoints|
      invariant hasExternal <==> exists k :: 0 <= k < i && p.endpoints[k].enabled && p.endpoints[k].engine == External
    {
      if p.endpoints[i].enabled && p.endpoints[i].engine == External { hasExternal := true; }
    }
    if !hasExternal {
      return true;
    }
    for i := 0 to |p.rules|
      invariant forall k :: 0 <= k < i ==> !AnyV6(p.rules[k].ipCidr)
    {
      if AnyV6(p.rules[i].ipCidr) {
        assert p.rules[i] in p.rules;
        return false;
      }
    }
    for i := 0 to |p.lists|
      invariant forall k :: 0 <= k < i && p.lists[k].enabled ==> !ListHasV6(p.lists[k])
    {
      if p.lists[i].enabled && ListHasV6(p.lists[i]) {
        assert p.lists[i] in p.lists;
        return false;
      }
    }
    return true;
  }

  // ---- when the verdict is given, in the profile's own fields ----

  /** The target is neither direct nor block. */
  predicate Aimed(tag: string) { Lower(tag) != "direct" && Lower(tag) != "block" && tag != "" }

  /** No name, only addresses or sources; a default goes direct; a rule for a tunnel is an address rule. */
  ghost predicate RuleNative(p: Profile, r: Rule) {
    && r.domain + r.domainSuffix + r.geoSite + r.geoIP == []
    && (r.isDefault ==> Lower(r.outbound) == "direct" || r.outbound == "")
    && (!r.disabled && Aimed(r.outbound) ==> OnlyAddresses(r) && LeadsToTunnel(p, r.outbound))
  }

  /** Entries only, none of them a name; a list for a tunnel has addresses. */
  ghost predicate ListNative(p: Profile, l: RoutingList) {
    && l.source == "" && (forall e :: e in l.manual && e.Text? ==> "#" <= e.text)
    && (Aimed(l.outbound) ==> OnlyAddressList(l) && LeadsToTunnel(p, l.outbound))
  }

  /** The kernel carries the endpoint itself. */
  predicate EndpointNative(e: Endpoint) {
    e.engine == External || e.engine == AmneziaWG || (e.engine == SingBox && e.protocol == WireGuard)
  }

  /** The entry's text has a colon: an IPv6 address, or text that is no address. */
  predicate HasColon(e: Entry) {
    match e
    case Blank => false
    case Net(n) => n.v6
    case Text(s) => ':' in s
  }

  ghost predicate NoColon(p: Profile) {
    && (forall r, e :: r in p.rules && e in r.ipCidr ==> !HasColon(e))
    && (forall l, e :: l in p.lists && l.enabled && e in l.manual + l.cidrCache ==> !HasColon(e))
  }

  /** sing-box may stay off exactly then: in fast mode only, and for these profiles only. */
  lemma VerdictIff(p: Profile, mode: string)
    ensures Verdict(p, mode) <==>
      && mode == "fast" && (exists e :: e in p.endpoints && e.enabled)
      && (forall e :: e in p.endpoints && e.enabled ==> EndpointNative(e))
      && (forall r :: r in p.rules ==> RuleNative(p, r))
      && (forall l :: l in p.lists && l.enabled ==> ListNative(p, l))
      && ((exists e :: e in p.endpoints && e.enabled && e.engine == External) ==> NoColon(p))
  {
    RootsAre(p);
    forall r | r in p.rules
      ensures RuleNative(p, r) <==> DefaultIsWan(r) && !RuleRefers(p, r) && !HasDomainOrGeo(r) {
      RuleNativeIs(p, r);
    }
    forall l | l in p.lists && l.enabled ensures ListNative(p, l) <==> ListIsPlain(l) && !ListRefers(p, l) {
      ListNativeIs(p, l);
    }
    NoColonIs(p);
    assert forall e :: EndpointNative(e) <==> !NeedsSingbox(e);
  }

  lemma NoColonIs(p: Profile)
    ensures NoColon(p) <==>
      && (forall r :: r in p.rules ==> !AnyV6(r.ipCidr))
      && (forall l :: l in p.lists && l.enabled ==> !ListHasV6(l))
  {
    forall es ensures AnyV6(es) <==> exists e :: e in es && HasColon(e) { AnyV6Is(es); }
    forall l: RoutingList ensures ListHasV6(l) <==> AnyV6(l.manual + l.cidrCache) { V6Concat(l.manual, l.cidrCache); }
  }

  lemma AnyV6Is(es: seq<Entry>)
    ensures AnyV6(es) <==> exists e :: e in es && HasColon(e)
  {}

  lemma V6Concat(a: seq<Entry>, b: seq<Entry>)
    ensures AnyV6(a + b) <==> AnyV6(a) || AnyV6(b)
  {
    assert forall e :: e in a + b <==> e in a || e in b;
  }

  lemma RuleNativeIs(p: Profile, r: Rule)
    ensures RuleNative(p, r) <==> DefaultIsWan(r) && !RuleRefers(p, r) && !HasDomainOrGeo(r)
  {
    NoNames(r);
    AimedIsReference(r.outbound);
    OnlyAddressesAre(r);
    TunnelIsKernel(p, r.outbound);
    DefaultIsDirect(r);
  }

  lemma NoNames(r: Rule)
    ensures r.domain + r.domainSuffix + r.geoSite + r.geoIP == [] <==> !HasDomainOrGeo(r)
  {
    assert |r.domain + r.domainSuffix + r.geoSite + r.geoIP| ==
      |r.domain| + |r.domainSuffix| + |r.geoSite| + |r.geoIP|;
  }

  lemma AimedIsReference(tag: string)
    ensures Aimed(tag) <==> IsReference(tag)
  {
    BuiltinIsCanonical(tag);
  }

  lemma DefaultIsDirect(r: Rule)
    ensures DefaultIsWan(r) <==> (r.isDefault ==> Lower(r.outbound) == "direct" || r.outbound == "")
  {
    assert Lower("") == "";
  }

  lemma ListNativeIs(p: Profile, l: RoutingList)
    requires l.enabled
    ensures ListNative(p, l) <==> ListIsPlain(l) && !ListRefers(p, l)
  {
    TunnelIsKernel(p, l.outbound);
    BuiltinIsCanonical(l.outbound);
    SplitNames(l.manual);
    PartsAre(l);
    assert Lower("") == "";
  }

  const BY_NAME := Rule("d", [], ["example.org"], [], [], [], [], [], [], [], [], false, false, DIRECT)
  const NAMED := Profile([AWG], [], [BY_NAME], [])

  /** The guard against names is not implied by the one before it: a name sent direct reaches nothing and is refused. */
  lemma NameGuardNeeded()
    ensures ProfileNativeOnly(NAMED) && Roots(NAMED) == {} && !Verdict(NAMED, "fast")
  {
    assert AWG in NAMED.endpoints && NAMED.rules[0] in NAMED.rules && HasDomainOrGeo(NAMED.rules[0]);
    assert Lower(DIRECT) == DIRECT;
    assert RuleRoots(NAMED, 0) == {} && RuleRoots(NAMED, 1) == {} && ListRoots(NAMED, 0) == {};
  }

  // ---- what the verdict guarantees ----

  /** The one egress whose IPv6 addresses the verdict does not look at. */
  predicate AwgOnlyV4(p: Profile, tag: string) {
    var e := EndpointByID(p.endpoints, tag);
    e.Some? && e.value.engine == AmneziaWG && e.value.localAddresses != []
    && forall a :: a in e.value.localAddresses ==> ':' !in a
  }

  /** A zone of the outbound takes the address, whoever sends to it. */
  ghost predicate InZone(p: Profile, opt: Options, tag: string, a: Addr) {
    exists z :: z in CompilePlan(p, opt).zones && z.tag == tag && !z.srcScoped
      && Covered(if a.v6 then z.v6 else z.v4, a)
  }

  lemma PlanCovers(p: Profile, opt: Options, tag: string, es: seq<Entry>, a: Addr)
    requires InPlan(p, opt, tag, es) && Named(es, a) && !Stripped(p, tag, a)
    ensures InZone(p, opt, tag, a)
  {
    var z :| z in CompilePlan(p, opt).zones && CarriesExactly(p, z, tag, es);
  }

  lemma NamedIsV6(es: seq<Entry>, a: Addr)
    requires Named(es, a) && a.v6
    ensures AnyV6(es)
  {}

  /** In a valid profile an external target is an enabled endpoint. */
  lemma ExternalIsEnabled(c: Checks, p: Profile, tag: string)
    requires Valid(c, p) && Usable(p, tag) && EndpointByID(p.endpoints, tag).Some?
    ensures EndpointByID(p.endpoints, tag).value.engine == External ==> UsesExternal(p)
  {
    Lookups(p);
    UsableAre(p, tag);
  }

  /** Under the verdict, an enabled rule or list loses IPv6 addresses exactly when its outbound is such an endpoint. */
  lemma StrippedIffAwgOnlyV4(c: Checks, p: Profile, mode: string, tag: string, es: seq<Entry>, a: Addr)
    requires Valid(c, p) && Verdict(p, mode) && Usable(p, tag) && KernelEgress(p, tag)
    requires Named(es, a) && (UsesExternal(p) ==> !AnyV6(es))
    ensures Stripped(p, tag, a) <==> a.v6 && AwgOnlyV4(p, tag)
  {
    if a.v6 { NamedIsV6(es, a); }
    if EndpointByID(p.endpoints, tag).Some? { ExternalIsEnabled(c, p, tag); }
  }

  /**
   If sing-box may stay off, every address of an enabled rule aimed at an endpoint or group
   lies in a kernel zone of that outbound, IPv6 included unless the outbound is an AmneziaWG
   endpoint that declares only IPv4.
   */
  lemma VerdictCarriesRule(c: Checks, p: Profile, opt: Options, mode: string, r: Rule, a: Addr)
    requires Valid(c, p) && ParsedProfile(p) && Verdict(p, mode)
    requires r in p.rules && !r.disabled && IsReference(r.outbound) && Named(r.ipCidr, a)
    ensures DroppedRule(p, r)
    ensures !(a.v6 && AwgOnlyV4(p, r.outbound)) ==> InZone(p, opt, r.outbound, a)
  {
    RootsAre(p);
    assert !RuleRefers(p, r) && RuleOk(c, p, r);
    BuiltinIsCanonical(r.outbound);
    StrippedIffAwgOnlyV4(c, p, mode, r.outbound, r.ipCidr, a);
    if !Stripped(p, r.outbound, a) {
      DroppedRuleCarried(p, opt, r, a);
      PlanCovers(p, opt, r.outbound, r.ipCidr, a);
    }
  }

  lemma VerdictCarriesList(c: Checks, p: Profile, opt: Options, mode: string, l: RoutingList, a: Addr)
    requires Valid(c, p) && ParsedProfile(p) && Verdict(p, mode)
    requires l in p.lists && l.enabled && IsReference(l.outbound) && Named(l.manual + l.cidrCache, a)
    ensures DroppedList(p, l)
    ensures !(a.v6 && AwgOnlyV4(p, l.outbound)) ==> InZone(p, opt, l.outbound, a)
  {
    var es := l.manual + l.cidrCache;
    RootsAre(p);
    assert !ListRefers(p, l) && ListOk(c, p, l);
    BuiltinIsCanonical(l.outbound);
    V6Concat(l.manual, l.cidrCache);
    StrippedIffAwgOnlyV4(c, p, mode, l.outbound, es, a);
    if !Stripped(p, l.outbound, a) {
      DroppedListCarried(p, opt, l, a);
      PlanCovers(p, opt, l.outbound, es, a);
    }
  }

  /** Under the verdict sing-box would have written no reference but direct. */
  lemma VerdictLeavesNothing(c: Checks, p: Profile, mode: string, t: string)
    requires Valid(c, p) && Verdict(p, mode) && Referred(p, t)
    ensures t == DIRECT
  {
    assert LeastClosed(p, Roots(p), {});
    ReferredReached(c, p, {}, t);
  }
}
