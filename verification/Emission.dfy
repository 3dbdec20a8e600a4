/**
 Which outbound tags a hybrid `Generate` of `internal/generator/singbox.go` writes, and which
 ones the written route refers to. `hybridReachable` is the least set closed under group
 membership from its roots; what the rules and the final reach is always written.
 */
module Emission {
  import opened Cidr
  import opened Profiles
  import opened Compile
  import opened Validate
  import opened Hybrid

  /** `canonicalOutbound`: builtin tags fold to lower case. */
  function Canonical(tag: string): string {
    if Lower(tag) == DIRECT then DIRECT else if Lower(tag) == BLOCK then BLOCK else tag
  }

  // ---- roots ----

  /** A tag that is an endpoint or group reference. */
  predicate IsReference(tag: string) { Canonical(tag) != DIRECT && Canonical(tag) != BLOCK && tag != "" }

  /** The rule stays in sing-box and refers to an endpoint or group. */
  predicate RuleRefers(p: Profile, r: Rule) { !r.disabled && !DroppedRule(p, r) && IsReference(r.outbound) }

  predicate ListRefers(p: Profile, l: RoutingList) { l.enabled && !DroppedList(p, l) && IsReference(l.outbound) }

  function RuleRoots(p: Profile, k: nat): set<string>
    requires k <= |p.rules|
  {
    if k == 0 then {} else RuleRoots(p, k - 1) + if RuleRefers(p, p.rules[k - 1]) then {p.rules[k - 1].outbound} else {}
  }

  function ListRoots(p: Profile, k: nat): set<string>
    requires k <= |p.lists|
  {
    if k == 0 then {} else ListRoots(p, k - 1) + if ListRefers(p, p.lists[k - 1]) then {p.lists[k - 1].outbound} else {}
  }

  function Roots(p: Profile): set<string> { RuleRoots(p, |p.rules|) + ListRoots(p, |p.lists|) }

  predicate RuleRefersTo(p: Profile, i: nat, t: string) {
    i < |p.rules| && RuleRefers(p, p.rules[i]) && p.rules[i].outbound == t
  }

  predicate ListRefersTo(p: Profile, i: nat, t: string) {
    i < |p.lists| && ListRefers(p, p.lists[i]) && p.lists[i].outbound == t
  }

  lemma {:induction false} RuleRootIs(p: Profile, k: nat, t: string)
    requires k <= |p.rules|
    ensures t in RuleRoots(p, k) <==> exists i: nat :: i < k && RuleRefersTo(p, i, t)
  {
    if k > 0 {
      RuleRootIs(p, k - 1, t);
      assert t in RuleRoots(p, k) <==> t in RuleRoots(p, k - 1) || RuleRefersTo(p, k - 1, t);
      assert forall i: nat :: i < k && RuleRefersTo(p, i, t) ==> i < k - 1 || i == k - 1;
    }
  }

  lemma {:induction false} ListRootIs(p: Profile, k: nat, t: string)
    requires k <= |p.lists|
    ensures t in ListRoots(p, k) <==> exists i: nat :: i < k && ListRefersTo(p, i, t)
  {
    if k > 0 {
      ListRootIs(p, k - 1, t);
      assert t in ListRoots(p, k) <==> t in ListRoots(p, k - 1) || ListRefersTo(p, k - 1, t);
      assert forall i: nat :: i < k && ListRefersTo(p, i, t) ==> i < k - 1 || i == k - 1;
    }
  }

  lemma RootsAre(p: Profile)
    ensures forall r :: r in p.rules && RuleRefers(p, r) ==> r.outbound in Roots(p)
    ensures forall l :: l in p.lists && ListRefers(p, l) ==> l.outbound in Roots(p)
    ensures forall t :: t in Roots(p) ==>
      (exists r :: r in p.rules && RuleRefers(p, r) && r.outbound == t)
          || (exists l :: l in p.lists && ListRefers(p, l) && l.outbound == t)
  {
    forall t ensures t in RuleRoots(p, |p.rules|) <==> exists i: nat :: i < |p.rules| && RuleRefersTo(p, i, t) {
      RuleRootIs(p, |p.rules|, t);
    }
    forall t ensures t in ListRoots(p, |p.lists|) <==> exists i: nat :: i < |p.lists| && ListRefersTo(p, i, t) {
      ListRootIs(p, |p.lists|, t);
    }
    forall r | r in p.rules && RuleRefers(p, r) ensures r.outbound in Roots(p) {
      var i :| 0 <= i < |p.rules| && p.rules[i] == r;
      assert RuleRefersTo(p, i, r.outbound);
    }
    forall l | l in p.lists && ListRefers(p, l) ensures l.outbound in Roots(p) {
      var i :| 0 <= i < |p.lists| && p.lists[i] == l;
      assert ListRefersTo(p, i, l.outbound);
    }
  }

  method RuleRefersScan(p: Profile, r: Rule) returns (refers: bool)
    ensures refers == RuleRefers(p, r)
  {
    if r.disabled {
      return false;
    }
    if !r.isDefault && IpOnlyRule(r) {
      var kernel := KernelEgressScan(p, r.outbound);
      if kernel {
        return false;
      }
    }
    return IsReference(r.outbound);
  }

  method ListRefersScan(p: Profile, l: RoutingList) returns (refers: bool)
    ensures refers == ListRefers(p, l)
  {
    if !l.enabled {
      return false;
    }
    var kernel := KernelEgressScan(p, l.outbound);
    if kernel && l.source == "" {
      var parts := SplitScan(l.manual);
      if parts.domains == [] && parts.ips != [] {
        return false;
      }
    }
    return IsReference(l.outbound);
  }

  method CollectRoots(p: Profile) returns (roots: set<string>)
    ensures roots == Roots(p)
  {
    roots := {};
    for i := 0 to |p.rules|
      invariant roots == RuleRoots(p, i)
    {
      var refers := RuleRefersScan(p, p.rules[i]);
      if refers { roots := roots + {p.rules[i].outbound}; }
    }
    for i := 0 to |p.lists|
      invariant roots == RuleRoots(p, |p.rules|) + ListRoots(p, i)
    {
      var refers := ListRefersScan(p, p.lists[i]);
      if refers { roots := roots + {p.lists[i].outbound}; }
    }
  }

  // ---- reachability ----

  /** The members a tag leads to. */
  function MembersOf(p: Profile, tag: string): seq<string> {
    var g := GroupByID(p.groups, tag);
    if g.Some? then g.value.members else []
  }

  ghost predicate Leads(p: Profile, tag: string, s: set<string>) { forall m :: m in MembersOf(p, tag) ==> m in s }

  ghost predicate Closed(p: Profile, s: set<string>) { forall t :: t in s ==> Leads(p, t, s) }

  /** The least set that holds the roots and is closed under group membership. */
  ghost predicate LeastClosed(p: Profile, roots: set<string>, s: set<string>) {
    roots <= s && Closed(p, s) && forall c :: roots <= c && Closed(p, c) ==> s <= c
  }

  lemma LeastUnique(p: Profile, roots: set<string>, a: set<string>, b: set<string>)
    requires LeastClosed(p, roots, a) && LeastClosed(p, roots, b)
    ensures a == b
  {}

  ghost function Universe(p: Profile, roots: set<string>): set<string> {
    roots + set g, m | g in p.groups && m in g.members :: m
  }

  lemma MembersInside(p: Profile, roots: set<string>, tag: string)
    ensures Leads(p, tag, Universe(p, roots))
  {}

  lemma OneMore(u: set<string>, s: set<string>, tag: string)
    requires tag in u && tag !in s
    ensures |u - (s + {tag})| < |u - s|
  {
    assert u - (s + {tag}) == (u - s) - {tag};
  }

  lemma FewerLeft(u: set<string>, a: set<string>, b: set<string>)
    requires a <= b
    ensures |u - b| <= |u - a|
  {
    assert u - a == (u - b) + ((u - a) - (u - b));
  }

  /** What one `visit` adds: the tag, and with every new tag its members; and nothing a closed set would not hold. */
  ghost predicate Visited(p: Profile, tag: string, was: set<string>, now: set<string>) {
    && was <= now && tag in now
    && (forall t :: t in now && t !in was ==> Leads(p, t, now))
    && forall c :: was <= c && tag in c && Closed(p, c) ==> now <= c
  }

  method Visit(p: Profile, tag: string, reach: set<string>, ghost u: set<string>) returns (out: set<string>)
    requires tag in u && forall t :: Leads(p, t, u)
    ensures Visited(p, tag, reach, out)
    decreases |u - reach|, 0
  {
    if tag in reach {
      return reach;
    }
    OneMore(u, reach, tag);
    out := VisitMembers(p, tag, reach, u);
  }

  /** The loop of `visit` over the members of a tag met for the first time. */
  method VisitMembers(p: Profile, tag: string, reach: set<string>, ghost u: set<string>) returns (out: set<string>)
    requires tag in u && forall t :: Leads(p, t, u)
    ensures Visited(p, tag, reach, out)
    decreases |u - (reach + {tag})|, 1
  {
    var members := MembersOf(p, tag);
    out := reach + {tag};
    assert Leads(p, tag, u);
    for i := 0 to |members|
      invariant reach + {tag} <= out && Grown(p, tag, reach, out)
      invariant forall k :: 0 <= k < i ==> members[k] in out
    {
      FewerLeft(u, reach + {tag}, out);
      ghost var before := out;
      assert members[i] in members;
      out := Visit(p, members[i], out, u);
      VisitComposes(p, reach, tag, members[i], before, out);
    }
  }

  /** While a tag's members are walked: every other new tag is complete, and nothing is in excess. */
  ghost predicate Grown(p: Profile, tag: string, was: set<string>, now: set<string>) {
    && (forall t :: t in now && t !in was && t != tag ==> Leads(p, t, now))
    && forall c :: was <= c && tag in c && Closed(p, c) ==> now <= c
  }

  lemma VisitComposes(p: Profile, reach: set<string>, tag: string, m: string, before: set<string>, out: set<string>)
    requires Visited(p, m, before, out) && m in MembersOf(p, tag) && Grown(p, tag, reach, before)
    ensures Grown(p, tag, reach, out)
  {
    forall c | reach <= c && tag in c && Closed(p, c) ensures out <= c {
      assert before <= c;
      assert Leads(p, tag, c);
    }
    forall t | t in out && t !in reach && t != tag ensures Leads(p, t, out) {
      if t in before { assert Leads(p, t, before); }
    }
  }

  /** `hybridReachable`. */
  method HybridReachable(p: Profile) returns (reach: set<string>)
    ensures LeastClosed(p, Roots(p), reach)
  {
    var roots := CollectRoots(p);
    ghost var u := Universe(p, roots);
    forall t ensures Leads(p, t, u) { MembersInside(p, roots, t); }
    reach := {};
    var rest := roots;
    while rest != {}
      invariant rest <= roots && roots - rest <= reach && Closed(p, reach)
      invariant forall c :: roots <= c && Closed(p, c) ==> reach <= c
      decreases |rest|
    {
      var tag :| tag in rest;
      ghost var before := reach;
      reach := Visit(p, tag, reach, u);
      rest := rest - {tag};
      forall t | t in reach ensures Leads(p, t, reach) {
        if t in before { assert Leads(p, t, before); }
      }
    }
  }

  // ---- what is written ----

  predicate KernelEngine(e: Endpoint) { e.engine == AmneziaWG || e.engine == External }

  /** A disabled endpoint is never written, a kernel one only when reachable. */
  predicate EndpointWritten(reach: set<string>, e: Endpoint) { e.enabled && (KernelEngine(e) ==> e.id in reach) }

  predicate GroupWritten(p: Profile, reach: set<string>, g: Group) { !KernelEgress(p, g.id) || g.id in reach }

  /** The tags of the generated outbounds and endpoints. */
  ghost predicate Written(p: Profile, reach: set<string>, t: string) {
    || t == DIRECT
    || (exists e :: e in p.endpoints && e.id == t && EndpointWritten(reach, e))
    || (exists g :: g in p.groups && g.id == t && GroupWritten(p, reach, g))
  }

  /** The outbound-emitting loops of `Generate`. */
  method EmitOutbounds(p: Profile, reach: set<string>) returns (tags: seq<string>)
    ensures forall t :: t in tags <==> Written(p, reach, t)
  {
    tags := [DIRECT];
    for i := 0 to |p.endpoints|
      invariant forall t :: t in tags <==>
                  t == DIRECT
                  || exists k :: 0 <= k < i && p.endpoints[k].id == t && EndpointWritten(reach, p.endpoints[k])
    {
      var e := p.endpoints[i];
      if e.enabled && (!KernelEngine(e) || e.id in reach) { tags := tags + [e.id]; }
    }
    ghost var first := tags;
    for i := 0 to |p.groups|
      invariant forall t :: t in tags <==>
                  t in first
                  || exists k :: 0 <= k < i && p.groups[k].id == t && GroupWritten(p, reach, p.groups[k])
    {
      var g := p.groups[i];
      var kernel := KernelEgressScan(p, g.id);
      if !kernel || g.id in reach { tags := tags + [g.id]; }
    }
  }

  // ---- what is referred to ----

  /** The rule has a matcher sing-box can express: all but source MAC and interface. */
  predicate Expressible(r: Rule) {
    || HasNonBlank(r.domainSuffix) || HasNonBlank(r.domain) || HasNonBlank(r.geoSite) || HasNonBlank(r.geoIP)
    || HasEntry(r.ipCidr) || r.port != [] || HasEntry(r.sourceIP) || r.sourcePort != []
  }

  /** `routeFrom` writes a route action for the rule; a block target becomes a reject. */
  predicate RuleRouted(p: Profile, r: Rule) {
    !r.disabled && !r.isDefault && !DroppedRule(p, r) && Expressible(r) && Canonical(r.outbound) != BLOCK
  }

  /** `routingFrom` writes a route action for the list. */
  predicate ListRouted(p: Profile, l: RoutingList) {
    var parts := SplitDomainsIPs(l.manual);
    && l.enabled && !DroppedList(p, l) && (l.source != "" || parts.domains != [] || parts.ips != [])
    && Canonical(l.outbound) != BLOCK
  }

  predicate SetsFinal(r: Rule) { r.isDefault && !r.disabled && Canonical(r.outbound) != BLOCK }

  function FinalAfter(p: Profile, k: nat): string
    requires k <= |p.rules|
  {
    if k == 0 then DIRECT
    else if SetsFinal(p.rules[k - 1]) then Canonical(p.rules[k - 1].outbound)
    else FinalAfter(p, k - 1)
  }

  function Final(p: Profile): string { FinalAfter(p, |p.rules|) }

  /** The tags the route's rules refer to. */
  ghost predicate Matched(p: Profile, t: string) {
    || (exists r :: r in p.rules && RuleRouted(p, r) && Canonical(r.outbound) == t)
    || (exists l :: l in p.lists && ListRouted(p, l) && Canonical(l.outbound) == t)
  }

  /** And its final. */
  ghost predicate Referred(p: Profile, t: string) { t == Final(p) || Matched(p, t) }

  /** A default rule that rejects what nothing else matched. */
  predicate BlocksRest(r: Rule) { r.isDefault && !r.disabled && Canonical(r.outbound) == BLOCK }

  ghost predicate RuleMatched(p: Profile, t: string) {
    exists r :: r in p.rules && RuleRouted(p, r) && Canonical(r.outbound) == t
  }

  /** One of the first `k` rules is routed to the tag. */
  ghost predicate RoutedBefore(p: Profile, k: nat, t: string)
    requires k <= |p.rules|
  {
    exists i :: 0 <= i < k && RuleRouted(p, p.rules[i]) && Canonical(p.rules[i].outbound) == t
  }

  ghost predicate BlockedBefore(p: Profile, k: nat)
    requires k <= |p.rules|
  {
    exists i :: 0 <= i < k && BlocksRest(p.rules[i])
  }

  lemma OneRuleMore(p: Profile, k: nat)
    requires k < |p.rules|
    ensures BlockedBefore(p, k + 1) <==> BlockedBefore(p, k) || BlocksRest(p.rules[k])
    ensures forall t :: RoutedBefore(p, k + 1, t) <==>
              RoutedBefore(p, k, t) || (RuleRouted(p, p.rules[k]) && Canonical(p.rules[k].outbound) == t)
  {
    forall t ensures RoutedBefore(p, k + 1, t) <==>
        RoutedBefore(p, k, t) || (RuleRouted(p, p.rules[k]) && Canonical(p.rules[k].outbound) == t) {
      OneRouteMore(p, k, t);
    }
  }

  lemma OneRouteMore(p: Profile, k: nat, t: string)
    requires k < |p.rules|
    ensures RoutedBefore(p, k + 1, t) <==>
      RoutedBefore(p, k, t) || (RuleRouted(p, p.rules[k]) && Canonical(p.rules[k].outbound) == t)
  {}

  lemma AllRules(p: Profile)
    ensures BlockedBefore(p, |p.rules|) <==> exists r :: r in p.rules && BlocksRest(r)
    ensures forall t :: RoutedBefore(p, |p.rules|, t) <==> RuleMatched(p, t)
  {}

  /** The loop of `routeFrom`; `rejects` asks for the terminal reject rule. */
  method RouteFrom(p: Profile) returns (final: string, refs: seq<string>, rejects: bool)
    ensures final == Final(p)
    ensures forall t :: t in refs <==> RuleMatched(p, t)
    ensures rejects <==> exists r :: r in p.rules && BlocksRest(r)
  {
    final, refs, rejects := DIRECT, [], false;
    for i := 0 to |p.rules|
      invariant final == FinalAfter(p, i)
      invariant rejects <==> BlockedBefore(p, i)
      invariant forall t :: t in refs <==> RoutedBefore(p, i, t)
    {
      OneRuleMore(p, i);
      var r := p.rules[i];
      if !r.disabled {
        if r.isDefault {
          if Canonical(r.outbound) == BLOCK { rejects := true; } else { final := Canonical(r.outbound); }
        } else if RuleRouted(p, r) {
          refs := refs + [Canonical(r.outbound)];
        }
      }
    }
    AllRules(p);
  }

  /** The loop of `routingFrom`. */
  method RoutingFrom(p: Profile) returns (refs: seq<string>)
    ensures forall t :: t in refs <==>
              exists l :: l in p.lists && ListRouted(p, l) && Canonical(l.outbound) == t
  {
    refs := [];
    for i := 0 to |p.lists|
      invariant forall t :: t in refs
                  <==> exists k :: 0 <= k < i && ListRouted(p, p.lists[k]) && Canonical(p.lists[k].outbound) == t
    {
      if ListRouted(p, p.lists[i]) { refs := refs + [Canonical(p.lists[i].outbound)]; }
    }
  }

  method RouteReferences(p: Profile) returns (final: string, refs: seq<string>, rejects: bool)
    ensures final == Final(p)
    ensures forall t :: t in refs <==> Matched(p, t)
    ensures rejects <==> exists r :: r in p.rules && BlocksRest(r)
  {
    final, refs, rejects := RouteFrom(p);
    var more := RoutingFrom(p);
    refs := refs + more;
  }

  lemma {:induction false} FinalComesFrom(p: Profile, k: nat)
    requires k <= |p.rules|
    ensures FinalAfter(p, k) == DIRECT
      || exists i :: 0 <= i < k && SetsFinal(p.rules[i]) && FinalAfter(p, k) == Canonical(p.rules[i].outbound)
  {
    if k > 0 { FinalComesFrom(p, k - 1); }
  }

  // ---- closure ----

  ghost function UsableTags(p: Profile): set<string> {
    {DIRECT} + (set e | e in p.endpoints && e.enabled :: e.id) + (set g | g in p.groups :: g.id)
  }

  lemma UsableAre(p: Profile, t: string)
    ensures t in UsableTags(p) <==> t == DIRECT || Usable(p, t)
  {
    if t in GroupIds(p.groups) {
      var i :| 0 <= i < |p.groups| && GroupIds(p.groups)[i] == t;
      assert p.groups[i] in p.groups;
    }
    if g :| g in p.groups && g.id == t {
      var i :| 0 <= i < |p.groups| && p.groups[i] == g;
      assert GroupIds(p.groups)[i] == t;
    }
  }

  lemma BuiltinIsCanonical(t: string)
    ensures IsBuiltin(t) <==> Canonical(t) == DIRECT || Canonical(t) == BLOCK
    ensures IsReference(t) ==> Canonical(t) == t
  {
    assert Lower(DIRECT) == DIRECT && Lower(BLOCK) == BLOCK;
  }

  /** Everything reachable in a valid profile is an enabled endpoint, a group, or direct. */
  lemma ReachUsable(c: Checks, p: Profile, reach: set<string>)
    requires Valid(c, p) && LeastClosed(p, Roots(p), reach)
    ensures reach <= UsableTags(p)
  {
    var u := UsableTags(p);
    forall t | t in u ensures Leads(p, t, u) {
      forall m | m in MembersOf(p, t) ensures m in u {
        var g := GroupByID(p.groups, t).value;
        assert GroupOk(p, g) && MemberOk(p, g, m);
        UsableAre(p, m);
      }
    }
    RootsAre(p);
    forall t | t in Roots(p) ensures t in u {
      BuiltinIsCanonical(t);
      UsableAre(p, t);
    }
  }

  lemma ReachWritten(c: Checks, p: Profile, reach: set<string>, t: string)
    requires Valid(c, p) && LeastClosed(p, Roots(p), reach) && t in reach
    ensures Written(p, reach, t)
  {
    ReachUsable(c, p, reach);
    assert t in UsableTags(p);
    if e :| e in p.endpoints && e.enabled && e.id == t {
      assert EndpointWritten(reach, e);
    } else if g :| g in p.groups && g.id == t {
      assert GroupWritten(p, reach, g);
    }
  }

  lemma ReferredReached(c: Checks, p: Profile, reach: set<string>, t: string)
    requires Valid(c, p) && LeastClosed(p, Roots(p), reach) && Referred(p, t)
    ensures t == DIRECT || t in reach
  {
    RootsAre(p);
    FinalComesFrom(p, |p.rules|);
    if t == DIRECT {
    } else if i: nat :| i < |p.rules| && SetsFinal(p.rules[i]) && t == Canonical(p.rules[i].outbound) {
      assert p.rules[i] in p.rules;
      RuleReferred(c, p, p.rules[i]);
    } else if r :| r in p.rules && RuleRouted(p, r) && Canonical(r.outbound) == t {
      RuleReferred(c, p, r);
    } else {
      var l :| l in p.lists && ListRouted(p, l) && Canonical(l.outbound) == t;
      ListReferred(c, p, l);
    }
  }

  lemma UsableHasId(p: Profile, t: string)
    ensures Usable(p, t) ==> t in AllIds(p)
  {
    var es, gs := EndpointIds(p.endpoints), GroupIds(p.groups);
    forall e | e in p.endpoints ensures e.id in es {
      var i :| 0 <= i < |p.endpoints| && p.endpoints[i] == e;
      assert es[i] == e.id;
    }
  }

  lemma NoEmptyTarget(c: Checks, p: Profile)
    requires Valid(c, p)
    ensures !TargetOk(p, "")
  {
    assert Lower("") == "";
    UsableHasId(p, "");
  }

  lemma RuleReferred(c: Checks, p: Profile, r: Rule)
    requires Valid(c, p) && r in p.rules && !r.disabled && !DroppedRule(p, r) && Canonical(r.outbound) != BLOCK
    ensures Canonical(r.outbound) == DIRECT || (RuleRefers(p, r) && Canonical(r.outbound) == r.outbound)
  {
    assert RuleOk(c, p, r);
    NoEmptyTarget(c, p);
    BuiltinIsCanonical(r.outbound);
  }

  lemma ListReferred(c: Checks, p: Profile, l: RoutingList)
    requires Valid(c, p) && l in p.lists && l.enabled && !DroppedList(p, l) && Canonical(l.outbound) != BLOCK
    ensures Canonical(l.outbound) == DIRECT || (ListRefers(p, l) && Canonical(l.outbound) == l.outbound)
  {
    assert ListOk(c, p, l);
    NoEmptyTarget(c, p);
    BuiltinIsCanonical(l.outbound);
  }

  /** A chain of references: each tag after the first is a member of the group before it. */
  ghost predicate Chain(p: Profile, ns: seq<string>) {
    forall i :: 0 <= i < |ns| - 1 ==> ns[i + 1] in MembersOf(p, ns[i])
  }

  /** No step of the chain leads on from direct; with no group of that name none can. */
  ghost predicate EndsAtDirect(p: Profile, ns: seq<string>) {
    DIRECT !in GroupIds(p.groups) || forall i :: 0 <= i < |ns| - 1 ==> ns[i] != DIRECT
  }

  /**
   In every hybrid generation of a valid profile, each tag that the written rules and final
   lead to, through any nesting of groups, is itself written.
   */
  lemma {:induction false} ReferencesResolve(c: Checks, p: Profile, reach: set<string>, ns: seq<string>)
    requires Valid(c, p) && LeastClosed(p, Roots(p), reach) && EndsAtDirect(p, ns)
    requires ns != [] && Referred(p, ns[0]) && Chain(p, ns)
    ensures Written(p, reach, ns[|ns| - 1])
  {
    ChainReached(c, p, reach, ns, |ns| - 1);
    if ns[|ns| - 1] in reach { ReachWritten(c, p, reach, ns[|ns| - 1]); }
  }

  lemma {:induction false} ChainReached(c: Checks, p: Profile, reach: set<string>, ns: seq<string>, i: nat)
    requires Valid(c, p) && LeastClosed(p, Roots(p), reach) && EndsAtDirect(p, ns)
    requires i < |ns| && Referred(p, ns[0]) && Chain(p, ns)
    ensures ns[i] == DIRECT || ns[i] in reach
  {
    if i == 0 {
      ReferredReached(c, p, reach, ns[0]);
    } else {
      ChainReached(c, p, reach, ns, i - 1);
      assert ns[i] in MembersOf(p, ns[i - 1]);
      DirectLeadsNowhere(p);
      if ns[i - 1] in reach { assert Leads(p, ns[i - 1], reach); }
    }
  }

  lemma DirectLeadsNowhere(p: Profile)
    ensures DIRECT !in GroupIds(p.groups) ==> MembersOf(p, DIRECT) == []
  {
    var g := GroupByID(p.groups, DIRECT);
    if g.Some? {
      var i :| 0 <= i < |p.groups| && p.groups[i] == g.value;
      assert GroupIds(p.groups)[i] == DIRECT;
    }
  }

  // ---- where references do dangle ----

  /** Ids name one thing each, and no group is called like a builtin. */
  lemma Lookups(p: Profile)
    requires Unique(AllIds(p))
    ensures forall e :: e in p.endpoints ==> EndpointByID(p.endpoints, e.id) == Some(e)
    ensures forall g :: g in p.groups
              ==> GroupByID(p.groups, g.id) == Some(g) && EndpointByID(p.endpoints, g.id) == None
  {
    var all := AllIds(p);
    forall e | e in p.endpoints ensures EndpointByID(p.endpoints, e.id) == Some(e) {
      var f := EndpointByID(p.endpoints, e.id).value;
      var i :| 0 <= i < |p.endpoints| && p.endpoints[i] == e;
      var j :| 0 <= j < |p.endpoints| && p.endpoints[j] == f;
      assert all[i] == e.id && all[j] == f.id;
    }
    forall g | g in p.groups ensures GroupByID(p.groups, g.id) == Some(g) && EndpointByID(p.endpoints, g.id) == None {
      var n := |p.endpoints|;
      var h := GroupByID(p.groups, g.id).value;
      var i :| 0 <= i < |p.groups| && p.groups[i] == g;
      var j :| 0 <= j < |p.groups| && p.groups[j] == h;
      assert all[n + i] == g.id && all[n + j] == h.id;
      forall e | e in p.endpoints ensures e.id != g.id {
        var k :| 0 <= k < n && p.endpoints[k] == e;
        assert all[k] == e.id;
      }
    }
  }

  /** The tag names an endpoint of a kernel engine, or a group with such an egress. */
  ghost predicate KernelClass(p: Profile, t: string) {
    || (exists e :: e in p.endpoints && e.id == t && (e.engine == AmneziaWG || e.engine == External))
    || (exists g :: g in p.groups && g.id == t && KernelEgress(p, t))
  }

  /** A usable tag is left out exactly when it is kernel-class and unreachable. */
  lemma LeftOutIff(c: Checks, p: Profile, reach: set<string>, t: string)
    requires Valid(c, p) && Usable(p, t) && t != DIRECT
    ensures !Written(p, reach, t) <==> KernelClass(p, t) && t !in reach
  {
    Lookups(p);
    if e :| e in p.endpoints && e.id == t && e.enabled {
      assert forall f :: f in p.endpoints && f.id == t ==> f == e;
      assert forall g :: g in p.groups ==> g.id != t;
    } else {
      UsableAre(p, t);
      var g :| g in p.groups && g.id == t;
      assert forall f :: f in p.endpoints ==> f.id != t;
      assert forall h :: h in p.groups && h.id == t ==> h == g;
    }
  }

  /** And nothing else is written: a tag that is not usable, such as a disabled endpoint's, never is. */
  lemma UnusableUnwritten(p: Profile, reach: set<string>, t: string)
    requires t != "direct" && !Usable(p, t)
    ensures !Written(p, reach, t)
  {
    UsableAre(p, t);
  }

  /**
   For every chain of references, also one that leads on through a group called direct: its
   last tag is written exactly when it is direct, reachable, or not kernel-class.
   */
  lemma ChainEndsIff(c: Checks, p: Profile, reach: set<string>, ns: seq<string>)
    requires Valid(c, p) && LeastClosed(p, Roots(p), reach) && ns != [] && Referred(p, ns[0]) && Chain(p, ns)
    ensures var t := ns[|ns| - 1]; Written(p, reach, t) <==> t == DIRECT || t in reach || !KernelClass(p, t)
  {
    var t := ns[|ns| - 1];
    if t in reach {
      ReachWritten(c, p, reach, t);
    } else if t != DIRECT {
      if |ns| == 1 { ReferredReached(c, p, reach, t); }
      assert t in MembersOf(p, ns[|ns| - 2]);
      var g := GroupByID(p.groups, ns[|ns| - 2]).value;
      assert GroupOk(p, g) && MemberOk(p, g, t);
      LeftOutIff(c, p, reach, t);
    }
  }

  /** A written group lists a tag that is not written. */
  ghost predicate Dangles(p: Profile, reach: set<string>, g: Group, m: string) {
    g in p.groups && GroupWritten(p, reach, g) && m in g.members && !Written(p, reach, m)
  }

  /** An unreachable group without kernel member of its own nests an unreachable kernel group. */
  ghost predicate NestsOmitted(p: Profile, reach: set<string>, g: Group, m: string) {
    && g in p.groups && g.id !in reach && !KernelEgress(p, g.id)
    && m in g.members && m != DIRECT && m !in reach && KernelClass(p, m)
  }

  /** Beyond what the route reaches, a written group dangles exactly when it nests an omitted kernel group. */
  lemma GroupDanglesIff(c: Checks, p: Profile, reach: set<string>, g: Group, m: string)
    requires Valid(c, p) && LeastClosed(p, Roots(p), reach)
    ensures Dangles(p, reach, g, m) <==> NestsOmitted(p, reach, g, m)
  {
    if g in p.groups && m in g.members {
      assert GroupOk(p, g) && MemberOk(p, g, m);
      Lookups(p);
      if g.id in reach {
        assert Leads(p, g.id, reach) && m in MembersOf(p, g.id);
        ReachWritten(c, p, reach, m);
      } else if m != DIRECT {
        LeftOutIff(c, p, reach, m);
      }
    }
  }

  /** An enabled kernel endpoint of that id names no interface. */
  ghost predicate Nameless(p: Profile, m: string) {
    exists e :: e in p.endpoints && e.id == m && e.enabled && KernelEngine(e) && KernelIface(e) == ""
  }

  /**
   The nested tag is then itself a group, as a kernel endpoint would have made the outer group
   kernel-class; unless that endpoint names no interface or the outer group is called like a builtin.
   */
  lemma OmittedIsGroup(c: Checks, p: Profile, reach: set<string>, g: Group, m: string)
    requires Valid(c, p) && NestsOmitted(p, reach, g, m)
    ensures m in GroupIds(p.groups) || Nameless(p, m) || g.id == DIRECT || g.id == BLOCK
  {
    assert GroupOk(p, g) && MemberOk(p, g, m);
    Lookups(p);
    if e :| e in p.endpoints && e.id == m && e.enabled {
      GroupNamed(p, g);
      assert KernelMember(p, m) <==> KernelIface(e) != "";
    }
  }

  lemma GroupNamed(p: Profile, g: Group)
    requires Unique(AllIds(p)) && g in p.groups
    ensures g.id != ""
  {
    var i :| 0 <= i < |p.groups| && p.groups[i] == g;
    assert AllIds(p)[|p.endpoints| + i] == g.id;
  }

  /**
   A remote list's explicit download detour is written unless it is block, which nothing is called,
   or an omitted kernel tag.
   */
  lemma DetourDanglesIff(c: Checks, p: Profile, reach: set<string>, l: RoutingList)
    requires Valid(c, p) && l in p.lists && l.downloadVia != ""
    ensures !Written(p, reach, Canonical(l.downloadVia)) <==>
      || (Canonical(l.downloadVia) == BLOCK && !Written(p, reach, BLOCK))
      || (IsReference(l.downloadVia) && KernelClass(p, l.downloadVia) && l.downloadVia !in reach)
  {
    var t := l.downloadVia;
    assert ListOk(c, p, l);
    BuiltinIsCanonical(t);
    if IsReference(t) {
      LeftOutIff(c, p, reach, t);
    }
  }

  /** An AmneziaWG endpoint with a server, as validation demands. */
  const AWG := Endpoint("awg", AmneziaWG, AmneziaWGProto, Net(Prefix(false, 0x5060708, 32)), Blank, true, "0", [])
  const INNER := Group("inner", ["awg"], false)
  const OUTER := Group("outer", ["inner"], false)
  const PINNED := Rule("pin", [], [], [], [], [Net(Prefix(false, 1, 32))], [], [], [], [], [], false, false, "inner")
  const NESTED := Profile([AWG], [OUTER, INNER], [PINNED], [])

  lemma NestedLookups()
    ensures EndpointByID(NESTED.endpoints, "awg") == Some(AWG)
    ensures EndpointByID(NESTED.endpoints, "inner") == None && EndpointByID(NESTED.endpoints, "outer") == None
    ensures GroupByID(NESTED.groups, "inner") == Some(INNER) && GroupByID(NESTED.groups, "outer") == Some(OUTER)
  {}

  /** Such a profile exists: nothing is reachable, the inner group is omitted and the outer one still names it. */
  lemma NestedGroupDangles()
    ensures LeastClosed(NESTED, Roots(NESTED), {}) && Dangles(NESTED, {}, OUTER, "inner")
  {
    NestedLookups();
    assert KernelMember(NESTED, "awg") && !KernelMember(NESTED, "inner");
    assert "awg" in INNER.members && KernelEgress(NESTED, "inner");
    assert !KernelEgress(NESTED, "outer");
    assert DroppedRule(NESTED, PINNED);
    assert RuleRoots(NESTED, 0) == {} && RuleRoots(NESTED, 1) == {} && ListRoots(NESTED, 0) == {};
    assert OUTER in NESTED.groups;
  }

  /** And it passes validation, under every check of single items that accepts its endpoint and its rule. */
  lemma NestedIsValid(c: Checks)
    requires c.endpoint(AWG) && c.rule(PINNED)
    ensures Valid(c, NESTED)
  {
    NestedIds();
    NestedMembers(c);
    forall ns ensures !NestingCycle(NESTED.groups, ns) {
      if |ns| > 1 && Nests(NESTED.groups, ns[0], ns[1]) {
        assert ns[0] == "outer" && ns[1] == "inner";
        if |ns| > 2 { assert !Nests(NESTED.groups, ns[1], ns[2]); }
      }
    }
  }

  lemma NestedIds()
    ensures Unique(AllIds(NESTED)) && GroupIds(NESTED.groups) == ["outer", "inner"]
  {
    assert EndpointIds(NESTED.endpoints) == ["awg"] && RuleIds(NESTED.rules) == ["pin"] && ListIds(NESTED.lists) == [];
    assert GroupIds(NESTED.groups) == ["outer", "inner"];
    assert AllIds(NESTED) == ["awg", "outer", "inner", "pin"];
  }

  lemma NestedMembers(c: Checks)
    requires c.rule(PINNED)
    ensures forall g :: g in NESTED.groups ==> GroupOk(NESTED, g)
    ensures forall r :: r in NESTED.rules ==> RuleOk(c, NESTED, r)
  {
    NestedIds();
    assert AWG in NESTED.endpoints && AWG.id == "awg" && AWG.enabled;
    assert Usable(NESTED, "awg") && Usable(NESTED, "inner");
  }

  const FEED := RoutingList("feed", "https://example.org/list", [], [], DIRECT, "awg", true)
  const DETOURED := Profile([AWG], [], [], [FEED])

  /** A list fetched through an AmneziaWG tunnel nothing else refers to: the profile is valid and the detour dangles. */
  lemma DetourDangles(c: Checks)
    requires c.endpoint(AWG) && c.list(FEED)
    ensures Valid(c, DETOURED) && LeastClosed(DETOURED, Roots(DETOURED), {})
    ensures FEED in DETOURED.lists && !Written(DETOURED, {}, Canonical(FEED.downloadVia))
  {
    DetourIds();
    DetourTargets(c);
    DetourReach();
    forall ns ensures !NestingCycle(DETOURED.groups, ns) {
      if |ns| > 1 { assert !Nests(DETOURED.groups, ns[0], ns[1]); }
    }
  }

  lemma Lowered()
    ensures Lower("awg") == "awg" && Lower(DIRECT) == DIRECT && Canonical("awg") == "awg" && Canonical(DIRECT) == DIRECT
  {}

  lemma DetourIds()
    ensures Unique(AllIds(DETOURED))
  {
    assert EndpointIds(DETOURED.endpoints) == ["awg"] && ListIds(DETOURED.lists) == ["feed"];
    assert RuleIds(DETOURED.rules) == [] && GroupIds(DETOURED.groups) == [];
    assert AllIds(DETOURED) == ["awg", "feed"];
  }

  lemma DetourTargets(c: Checks)
    requires c.list(FEED)
    ensures ListOk(c, DETOURED, FEED)
  {
    Lowered();
    BuiltinIsCanonical(DIRECT);
    assert AWG in DETOURED.endpoints && Usable(DETOURED, "awg");
  }

  lemma DetourReach()
    ensures Roots(DETOURED) == {} && FEED in DETOURED.lists && !Written(DETOURED, {}, Canonical(FEED.downloadVia))
  {
    Lowered();
    assert RuleRoots(DETOURED, 0) == {} && ListRoots(DETOURED, 0) == {} && ListRoots(DETOURED, 1) == {};
  }
}
