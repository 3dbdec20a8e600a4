/**
 What the fields of a profile mean for its packets, end to end: a group's kill switch, the
 anti-loop bypass of every kernel endpoint, and the private destinations.
 */
module ProfileRoutes {
  import opened Sorting
  import opened Cidr
  import opened Profiles
  import opened Compile
  import opened Datapath
  import opened PolicyRouting
  import opened ApplyTeardown
  import opened PlaneEquivalence
  import opened PlanFacts
  import opened KillSwitch
  import opened Hybrid
  import opened RuleScope
  import Nftables
  import Iptables

  // ---- the kill switch of a group ----

  /** The plan of the profile was installed by either installer; at most 103 egresses besides WAN. */
  ghost predicate Deployed(p: Profile, opt: Options, base: Kernel, kern: Kernel) {
    && DefaultNumbering(opt) && EgressCount(p, opt) <= 103
    && Installed(CompilePlan(p, opt), WithDefaults(opt), base, kern)
  }

  /** A tag of the plan that is a tunnel whose group asks for a kill switch. */
  predicate Guarded(p: Profile, tag: string) { tag !in {"direct", "", "block"} && AsksKillSwitch(p, tag) }

  /**
   A packet that either chain marked for a kill-switched group never gets past that group's
   table: once no rule in front of the plan routes it, it leaves by the first kernel device
   among the group's members or is dropped, and it leaves exactly while that device is up and
   its route wins.
   */
  lemma GroupKillSwitch(p: Profile, opt: Options, base: Kernel, kern: Kernel, a: Addr, m: Word, z: Zone,
        up: set<string>) returns (iface: string, t: int)
    requires Deployed(p, opt, base, kern)
    requires z in CompilePlan(p, opt).zones && Guarded(p, z.tag) && m * CompilePlan(p, opt).mask == z.mark
    requires Routes(CompilePlan(p, opt), a.v6) && !Private(a) && a.n < Pow2(Width(a.v6))
    requires !EarlyFate(WithDefaults(opt), base, kern, a, m, up).Routed?
    ensures LeadsTo(p, z.tag, Tunnel, iface)
    ensures Lookup(kern, a, m, up) ==
      Routed(t, if iface in base.links && iface in up && DevMetric(base, a.v6) < 1000 then Dev(iface) else Drop)
  {
    var pl := CompilePlan(p, opt);
    CompiledPlanGood(p, opt);
    var e :| e in pl.egresses && e.tag == z.tag && e.mark == z.mark;
    EgressesStem(p, opt, e);
    PrivateAre(a);
    KillSwitchHolds(pl, WithDefaults(opt), base, kern, a, m, e, up);
    iface, t := e.iface, e.table;
  }

  /** What a claimed packet of a fresh flow carries after the nft chain. */
  lemma NftClaim(p: Profile, opt: Options, k: Packet, ct: Word)
    requires DefaultNumbering(opt) && EgressCount(p, opt) <= 103 && NoDomains(CompilePlan(p, opt))
    requires var pl := CompilePlan(p, opt); Fresh(pl, k.mark) && Fresh(pl, ct) && Decide(pl, k).Claimed?
    ensures var pl := CompilePlan(p, opt); var z := Decide(pl, k).zone;
      z in pl.zones && ZoneMatches(z, k) && Routes(pl, k.v6) && NftMark(pl, k, ct) * pl.mask == z.mark
  {
    var pl := CompilePlan(p, opt);
    CompiledPlanGood(p, opt);
    Nftables.FreshChain(pl, k, ct);
    LastClaimIsLast(pl.zones, k);
    ClaimedRoutes(pl, k);
  }

  /** And after the iptables chain, in a plan without blank source entries. */
  lemma IptClaim(p: Profile, opt: Options, s86: Word, k: Packet, ct: Word)
    requires DefaultNumbering(opt) && EgressCount(p, opt) <= 103 && NoDomains(CompilePlan(p, opt))
    requires var pl := CompilePlan(p, opt);
      Iptables.CleanSources(pl) && Fresh(pl, k.mark) && Fresh(pl, ct) && (s86 == {} || k.mark != s86)
          && Decide(pl, k).Claimed?
    ensures var pl := CompilePlan(p, opt); var z := Decide(pl, k).zone;
      z in pl.zones && ZoneMatches(z, k) && Routes(pl, k.v6) && IptMark(pl, s86, k, ct) * pl.mask == z.mark
  {
    var pl := CompilePlan(p, opt);
    CompiledPlanGood(p, opt);
    Iptables.CleanIsLoose(pl);
    Iptables.FreshPlane(pl, s86, k, ct);
    LastClaimIsLast(pl.zones, k);
    ClaimedRoutes(pl, k);
  }

  // ---- the bypass ----

  /** An enabled endpoint with a kernel device, whose own tunnel must not carry packets to it. */
  predicate Peer(e: Endpoint) {
    e.enabled && (e.engine == AmneziaWG || (e.engine == External && e.ifaceToken != ""))
  }

  lemma {:induction false} BypassMembers(es: seq<Endpoint>)
    ensures forall x :: x in BypassEntries(es) <==> exists e :: e in es && Peer(e) && x in [e.server, e.endpointIP]
  {
    if es != [] {
      var n := |es| - 1;
      BypassMembers(es[..n]);
      assert es == es[..n] + [es[n]];
      assert Peer(es[n]) <==> es[n].enabled && KernelIface(es[n]) != "";
    }
  }

  /** The address is the server or the peer address of an enabled kernel endpoint. */
  ghost predicate PeerAddress(p: Profile, a: Addr) {
    exists e :: e in p.endpoints && Peer(e) && Named([e.server, e.endpointIP], a)
  }

  /** The plan bypasses exactly those addresses. */
  lemma BypassIsPeers(p: Profile, opt: Options, k: Packet)
    requires ParsedProfile(p)
    ensures Bypassed(CompilePlan(p, opt), k) <==> PeerAddress(p, DstAddr(k))
  {
    var own, a := BypassEntries(p.endpoints), DstAddr(k);
    BypassMembers(p.endpoints);
    assert WellFormed(own);
    ClassifyCoversNamed(own);
    if Named(own, a) {
      var x :| x in own && x.Net? && Contains(x.net, a);
      var e :| e in p.endpoints && Peer(e) && x in [e.server, e.endpointIP];
      assert Named([e.server, e.endpointIP], a);
    }
    if PeerAddress(p, a) {
      var e :| e in p.endpoints && Peer(e) && Named([e.server, e.endpointIP], a);
      var x :| x in [e.server, e.endpointIP] && x.Net? && Contains(x.net, a);
      assert x in own;
    }
  }

  /** So a packet to a tunnel's own server consults no egress table, on either plane, whatever zone lists it. */
  lemma PeersStayOutside(p: Profile, opt: Options, base: Kernel, s86: Word, k: Packet, ct: Word)
    requires ParsedProfile(p) && PeerAddress(p, DstAddr(k))
    requires DefaultNumbering(opt) && EgressCount(p, opt) <= 103
    requires var pl := CompilePlan(p, opt);
      && NoDomains(pl) && Iptables.NoPluses(pl) && CleanBase(pl, WithDefaults(opt), base)
      && ApplyResult(pl, WithDefaults(opt), base).ok
      && IgnoresOwned(base.rules4, pl.mask) && IgnoresOwned(base.rules6, pl.mask)
      && Fresh(pl, k.mark) && Fresh(pl, ct) && (s86 == {} || k.mark != s86)
    ensures var pl, o, a := CompilePlan(p, opt), WithDefaults(opt), DstAddr(k);
      var around := Early(o, base, a, k.mark) + Pinned(pl, a) + Late(o, base, a, k.mark);
      && Consulted(Rules(NftKernel(pl, o, base), k.v6), a, NftMark(pl, k, ct)) == around
      && Consulted(Rules(IptKernel(pl, o, base), k.v6), a, IptMark(pl, s86, k, ct)) == around
  {
    var pl, o := CompilePlan(p, opt), WithDefaults(opt);
    BypassIsPeers(p, opt, k);
    CompiledPlanesAgree(p, opt, base, s86, k, ct);
    BypassedTables(pl, o, base, k);
  }

  lemma BypassedTables(pl: Plan, o: Options, base: Kernel, k: Packet)
    requires Bypassed(pl, k)
    ensures var around :=
        Early(o, base, DstAddr(k), k.mark) + Pinned(pl, DstAddr(k)) + Late(o, base, DstAddr(k), k.mark);
      SpecTables(pl, o, base, k) == around && SpecTables(Iptables.LoosePlan(pl), o, base, k) == around
  {
    var a := DstAddr(k);
    Iptables.LooseHasV6(pl);
    assert Early(o, base, a, k.mark) + Pinned(pl, a) + [] == Early(o, base, a, k.mark) + Pinned(pl, a);
  }

  // ---- a profile without IPv6 ----

  predicate FourOnly(es: seq<Entry>) { forall e :: e in es && e.Net? ==> !e.net.v6 }
  predicate HasNet(es: seq<Entry>) { exists e :: e in es && e.Net? }

  /** No enabled rule, list or peer names an IPv6 address, and every rule with sources names an address. */
  ghost predicate FourProfile(p: Profile) {
    && (forall r :: r in p.rules && !r.disabled && !r.isDefault ==> FourRule(r))
    && (forall l :: l in p.lists && l.enabled ==> FourOnly(l.manual + l.cidrCache))
    && (forall e :: e in p.endpoints && Peer(e) ==> FourOnly([e.server, e.endpointIP]))
  }

  predicate FourRule(r: Rule) {
    FourOnly(r.ipCidr) && FourOnly(r.sourceIP) && (HasSourceMatcher(r) ==> HasNet(r.ipCidr) || HasNet(r.sourceIP))
  }

  lemma FirstCovered(ps: seq<Prefix>)
    ensures ps != [] ==> Covered(ps, Network(ps[0]))
  {
    if ps != [] {
      NetworkInside(ps[0]);
      assert ps[0] in ps;
    }
  }

  lemma FourNamed(es: seq<Entry>)
    requires WellFormed(es) && FourOnly(es)
    ensures Classify(es).v6 == [] && (HasNet(es) ==> Classify(es).v4 != [])
  {
    var c := Classify(es);
    ClassifyCoversNamed(es);
    FirstCovered(c.v6);
    if e :| e in es && e.Net? {
      NetworkInside(e.net);
      assert Named(es, Network(e.net)) && Covered(c.v4, Network(e.net));
    }
  }

  lemma FourKept(p: Profile, tag: string, es: seq<Entry>)
    requires WellFormed(es) && FourOnly(es)
    ensures var c := Classify(KeptEntries(p, tag, es)); c.v6 == [] && (HasNet(es) ==> c.v4 != [])
  {
    var kept := KeptEntries(p, tag, es);
    FourNamed(es);
    KeptNamed(p, tag, es);
    ClassifyCoversNamed(es);
    if kept != es {
      assert FourOnly(kept);
      if HasNet(es) {
        assert kept == AsEntries(Classify(es).v4) && kept[0].Net? && kept[0] in kept;
      }
    }
    FourNamed(kept);
  }

  predicate FourZone(z: Zone) { z.v6 == [] && z.srcV6 == [] && (z.srcScoped ==> z.v4 != [] || z.srcV4 != []) }

  lemma FourRuleZone(p: Profile, collect: bool, b: Build, r: Rule)
    requires WellFormed(r.ipCidr) && WellFormed(r.sourceIP) && (!r.disabled && !r.isDefault ==> FourRule(r))
    requires forall z :: z in b.zones ==> FourZone(z)
    ensures forall z :: z in RuleStep(p, collect, b, r).zones ==> FourZone(z)
  {
    if RuleStep(p, collect, b, r) != b {
      var z := RuleAdds(p, collect, b, r);
      FourKept(p, r.outbound, r.ipCidr);
      FourKept(p, r.outbound, r.sourceIP);
    }
  }

  lemma FourListZone(p: Profile, collect: bool, b: Build, l: RoutingList)
    requires WellFormed(l.manual + l.cidrCache) && (l.enabled ==> FourOnly(l.manual + l.cidrCache))
    requires forall z :: z in b.zones ==> FourZone(z)
    ensures forall z :: z in ListStep(p, collect, b, l).zones ==> FourZone(z)
  {
    if l.enabled { FourKept(p, l.outbound, l.manual + l.cidrCache); }
  }

  lemma {:induction false} FourRules(p: Profile, collect: bool, k: nat)
    requires ParsedProfile(p) && FourProfile(p) && k <= |p.rules|
    ensures forall z :: z in AfterRules(p, collect, k).zones ==> FourZone(z)
  {
    if k > 0 {
      FourRules(p, collect, k - 1);
      assert p.rules[k - 1] in p.rules;
      FourRuleZone(p, collect, AfterRules(p, collect, k - 1), p.rules[k - 1]);
    }
  }

  lemma {:induction false} FourLists(p: Profile, collect: bool, k: nat)
    requires ParsedProfile(p) && FourProfile(p) && k <= |p.lists|
    ensures forall z :: z in AfterLists(p, collect, k).zones ==> FourZone(z)
  {
    if k == 0 {
      FourRules(p, collect, |p.rules|);
    } else {
      FourLists(p, collect, k - 1);
      assert p.lists[k - 1] in p.lists;
      FourListZone(p, collect, AfterLists(p, collect, k - 1), p.lists[k - 1]);
    }
  }

  /** The command is an `ip -6` one. */
  predicate Six(c: Cmd) { (c.RuleAdd? || c.RuleDel? || c.RouteReplace? || c.RouteAdd? || c.RouteFlush?) && c.v6 }

  /** Such a profile's plan installs, scripts and removes with no `ip -6` command at all. */
  lemma FourProfileStaysOffSix(p: Profile, opt: Options, o: Options)
    requires ParsedProfile(p) && FourProfile(p)
    ensures var pl := CompilePlan(p, opt);
      !HasV6(pl) && forall c :: c in InstallCmds(pl, o) + ScriptCmds(pl, o) + TeardownCmds(pl, o) ==> !Six(c)
  {
    var pl := CompilePlan(p, opt);
    FourLists(p, WithDefaults(opt).collectDomainZones, |p.lists|);
    PlanZones(p, opt);
    FourBypass(p);
    NoSix(pl, o);
  }

  lemma FourBypass(p: Profile)
    requires ParsedProfile(p) && FourProfile(p)
    ensures Classify(BypassEntries(p.endpoints)).v6 == []
  {
    BypassMembers(p.endpoints);
    FourNamed(BypassEntries(p.endpoints));
  }

  lemma NoSix(pl: Plan, o: Options)
    requires !HasV6(pl)
    ensures forall c :: c in InstallCmds(pl, o) + ScriptCmds(pl, o) + TeardownCmds(pl, o) ==> !Six(c)
  {
    EachFour(pl.mask, o.rulePref, NonWan(pl));
    ReassertsFour(Excludes(o.rulePref, false));
  }

  lemma {:induction false} EachFour(mask: Word, pref: int, es: seq<Egress>)
    ensures forall c :: c in EachEgress(mask, pref, false, es) ==> !Six(c)
    ensures forall c :: c in EachSeed(mask, pref, false, es) ==> !Six(c)
    ensures forall c :: c in EachTeardown(mask, pref, false, es) ==> !Six(c)
  {
    if es != [] { EachFour(mask, pref, es[..|es| - 1]); }
  }

  lemma {:induction false} ReassertsFour(rs: seq<IpRule>)
    ensures forall c :: c in Reasserts(false, rs) ==> !Six(c)
  {
    if rs != [] { ReassertsFour(rs[..|rs| - 1]); }
  }

  // ---- the shipped numbers ----

  lemma {:induction false} NonWanFewer(es: seq<Egress>)
    ensures |NonWanOf(es)| <= |es| && (es != [] && es[0].kind == WAN ==> |NonWanOf(es)| < |es|)
  {
    if es != [] {
      NonWanFewer(es[..|es| - 1]);
      if |es| == 1 { assert es[..0] == []; }
    }
  }

  /**
   As shipped, the rules of every plan with at most 102 egresses besides WAN stand at 147 to 252,
   between the local lookup and the main one of a stock router, and no egress table is one of
   the kernel's own.
   */
  lemma DefaultsFitStock(p: Profile, opt: Options, v6: bool)
    requires DefaultNumbering(opt) && opt.rulePref in {0, 150} && EgressCount(p, opt) <= 102
    ensures var pl, o := CompilePlan(p, opt), WithDefaults(opt);
      && (forall r :: r in OwnRules(pl, o, v6) ==> 147 <= r.prio < 253)
      && 3 < o.rulePref && o.rulePref + |NonWan(pl)| <= 32766
      && forall e :: e in NonWan(pl) ==> 151 <= e.table < 253
  {
    var pl := CompilePlan(p, opt);
    EgressShape(p, opt);
    NonWanFewer(pl.egresses);
    SortPermutes(NonWanOf(pl.egresses), MarkLeq);
    PrioritiesDistinct(pl, WithDefaults(opt), v6);
    NonWanMembers(pl);
  }
}
