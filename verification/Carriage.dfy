/**
 Where the kernel sends an address that left sing-box with its rule. Being in a zone of the
 rule's outbound is not yet being routed there: the anti-loop bypass, a private range or a zone
 whose set name sorts later can take the packet. The results say exactly when they do.
 */
module Carriage {
  import opened Sorting
  import opened Cidr
  import opened Profiles
  import opened Compile
  import opened Datapath
  import opened PolicyRouting
  import opened PlaneEquivalence
  import opened PlanFacts
  import opened Hybrid

  predicate DecidesFor(pl: Plan, k: Packet, tag: string) {
    Decide(pl, k).Claimed? && Decide(pl, k).zone.tag == tag
  }

  /** A claiming zone of another outbound sorts after every claiming zone of this one. */
  ghost predicate Overruled(pl: Plan, k: Packet, tag: string) {
    exists y :: y in pl.zones && ZoneMatches(y, k) && y.tag != tag && After(pl, k, tag, y)
  }

  ghost predicate After(pl: Plan, k: Packet, tag: string, y: Zone) {
    forall x :: x in pl.zones && ZoneMatches(x, k) && x.tag == tag ==> StrLeq(x.name, y.name)
  }

  /** Once some zone of the outbound claims the packet, it is decided for unless bypassed or overruled. */
  lemma DecidesForIff(pl: Plan, k: Packet, tag: string, z: Zone)
    requires Sorted(pl.zones, ZoneLeq) && NamesDistinct(pl.zones)
    requires z in pl.zones && ZoneMatches(z, k) && z.tag == tag
    ensures DecidesFor(pl, k, tag) <==> !Bypassed(pl, k) && !Overruled(pl, k, tag)
  {
    if !Bypassed(pl, k) {
      var w := LastByName(pl, k, z);
      if w.tag != tag {
        assert After(pl, k, tag, w);
      } else {
        forall y | y in pl.zones && ZoneMatches(y, k) && y.tag != tag ensures !After(pl, k, tag, y) {
          StrOrder();
          assert StrLeq(y.name, w.name);
          SameName(pl, w, y);
        }
      }
    }
  }

  /** The decision is for the claiming zone whose name sorts last. */
  lemma LastByName(pl: Plan, k: Packet, z: Zone) returns (w: Zone)
    requires Sorted(pl.zones, ZoneLeq) && z in pl.zones && ZoneMatches(z, k) && !Bypassed(pl, k)
    ensures Decide(pl, k) == Claimed(w) && w in pl.zones && ZoneMatches(w, k)
    ensures forall x :: x in pl.zones && ZoneMatches(x, k) ==> StrLeq(x.name, w.name)
  {
    LastClaimIsLast(pl.zones, k);
    w := Decide(pl, k).zone;
    var i: nat :| ClaimsLast(pl.zones, k, i) && pl.zones[i] == w;
    StrOrder();
    forall x | x in pl.zones && ZoneMatches(x, k) ensures StrLeq(x.name, w.name) {
      var j :| 0 <= j < |pl.zones| && pl.zones[j] == x;
      if j < i { assert ZoneLeq(pl.zones[j], pl.zones[i]); }
    }
  }

  lemma SameName(pl: Plan, x: Zone, y: Zone)
    requires NamesDistinct(pl.zones) && x in pl.zones && y in pl.zones
    ensures x.name == y.name ==> x == y
  {
    var i :| 0 <= i < |pl.zones| && pl.zones[i] == x;
    var j :| 0 <= j < |pl.zones| && pl.zones[j] == y;
  }

  /** The packet's own outbound is the first the plan looks up. */
  predicate Reaches(pl: Plan, k: Packet, tag: string) { DecidesFor(pl, k, tag) && Pinned(pl, DstAddr(k)) == [] }

  lemma CarrierMatches(p: Profile, opt: Options, tag: string, es: seq<Entry>, k: Packet) returns (z: Zone)
    requires InPlan(p, opt, tag, es) && Named(es, DstAddr(k)) && !Stripped(p, tag, DstAddr(k))
    requires forall z :: z in CompilePlan(p, opt).zones ==> GoodZone(z)
    ensures z in CompilePlan(p, opt).zones && ZoneMatches(z, k) && z.tag == tag
  {
    z :| z in CompilePlan(p, opt).zones && CarriesExactly(p, z, tag, es);
    assert Covered(if k.v6 then z.v6 else z.v4, DstAddr(k));
  }

  /**
   A packet to an address of a dropped rule reaches the rule's own outbound if and only if its
   address is not a tunnel server's, not private, and no claiming zone of another outbound
   sorts after every one of this outbound. Then that outbound's table comes first in the plan.
   */
  lemma DroppedRuleReaches(p: Profile, opt: Options, base: Kernel, r: Rule, k: Packet)
    requires ParsedProfile(p) && r in p.rules && DroppedRule(p, r) && Named(r.ipCidr, DstAddr(k))
        && !Stripped(p, r.outbound, DstAddr(k))
    requires DefaultNumbering(opt) && EgressCount(p, opt) <= 254
    ensures var pl := CompilePlan(p, opt);
      Reaches(pl, k, r.outbound) <==>
        !Bypassed(pl, k) && !Covered(PrivateRanges(k.v6), DstAddr(k)) && !Overruled(pl, k, r.outbound)
    ensures var pl, o, a := CompilePlan(p, opt), WithDefaults(opt), DstAddr(k);
      Reaches(pl, k, r.outbound) ==>
        exists e :: e in pl.egresses && e.tag == r.outbound && e.kind == Tunnel
          && SpecTables(pl, o, base, k) == Early(o, base, a, k.mark) + [e.table] + Late(o, base, a, k.mark)
  {
    DroppedRuleCarried(p, opt, r, DstAddr(k));
    CarriedReaches(p, opt, base, r.outbound, r.ipCidr, k);
  }

  /** The same for a list, its cached feed included. */
  lemma DroppedListReaches(p: Profile, opt: Options, base: Kernel, l: RoutingList, k: Packet)
    requires ParsedProfile(p) && l in p.lists && DroppedList(p, l)
    requires Named(l.manual + l.cidrCache, DstAddr(k)) && !Stripped(p, l.outbound, DstAddr(k))
    requires DefaultNumbering(opt) && EgressCount(p, opt) <= 254
    ensures var pl := CompilePlan(p, opt);
      Reaches(pl, k, l.outbound) <==>
        !Bypassed(pl, k) && !Covered(PrivateRanges(k.v6), DstAddr(k)) && !Overruled(pl, k, l.outbound)
    ensures var pl, o, a := CompilePlan(p, opt), WithDefaults(opt), DstAddr(k);
      Reaches(pl, k, l.outbound) ==>
        exists e :: e in pl.egresses && e.tag == l.outbound && e.kind == Tunnel
          && SpecTables(pl, o, base, k) == Early(o, base, a, k.mark) + [e.table] + Late(o, base, a, k.mark)
  {
    DroppedListCarried(p, opt, l, DstAddr(k));
    CarriedReaches(p, opt, base, l.outbound, l.manual + l.cidrCache, k);
  }

  lemma CarriedReaches(p: Profile, opt: Options, base: Kernel, tag: string, es: seq<Entry>, k: Packet)
    requires InPlan(p, opt, tag, es) && Named(es, DstAddr(k)) && !Stripped(p, tag, DstAddr(k)) && KernelEgress(p, tag)
    requires DefaultNumbering(opt) && EgressCount(p, opt) <= 254
    ensures var pl := CompilePlan(p, opt);
      Reaches(pl, k, tag) <==> !Bypassed(pl, k) && !Covered(PrivateRanges(k.v6), DstAddr(k)) && !Overruled(pl, k, tag)
    ensures var pl, o, a := CompilePlan(p, opt), WithDefaults(opt), DstAddr(k);
      Reaches(pl, k, tag) ==>
        exists e :: e in pl.egresses && e.tag == tag && e.kind == Tunnel
          && SpecTables(pl, o, base, k) == Early(o, base, a, k.mark) + [e.table] + Late(o, base, a, k.mark)
  {
    var pl := CompilePlan(p, opt);
    CompiledPlanGood(p, opt);
    PlanZones(p, opt);
    var z := CarrierMatches(p, opt, tag, es, k);
    DecidesForIff(pl, k, tag, z);
    if DecidesFor(pl, k, tag) {
      ClaimedRoutes(pl, k);
      var e := TunnelTable(p, opt, tag, k);
      ReachedTables(pl, WithDefaults(opt), base, k, e);
    }
  }

  lemma ReachedTables(pl: Plan, o: Options, base: Kernel, k: Packet, e: Egress)
    requires ChosenTable(pl, k) == [e.table]
    ensures Pinned(pl, DstAddr(k)) == [] ==>
      SpecTables(pl, o, base, k) == Early(o, base, DstAddr(k), k.mark) + [e.table] + Late(o, base, DstAddr(k), k.mark)
  {
    assert Early(o, base, DstAddr(k), k.mark) + [] == Early(o, base, DstAddr(k), k.mark);
  }

  lemma TunnelTable(p: Profile, opt: Options, tag: string, k: Packet) returns (e: Egress)
    requires GoodPlan(CompilePlan(p, opt)) && DecidesFor(CompilePlan(p, opt), k, tag) && KernelEgress(p, tag)
    requires DefaultNumbering(opt)
    ensures e in CompilePlan(p, opt).egresses && e.tag == tag && e.kind == Tunnel
        && ChosenTable(CompilePlan(p, opt), k) == [e.table]
  {
    e := DecidedEgress(CompilePlan(p, opt), k);
    CompiledTunnel(p, opt, e);
  }

  lemma DecidedEgress(pl: Plan, k: Packet) returns (e: Egress)
    requires GoodPlan(pl) && Decide(pl, k).Claimed?
    ensures e in pl.egresses && e.tag == Decide(pl, k).zone.tag
    ensures e.kind == Tunnel ==> ChosenTable(pl, k) == [e.table]
  {
    LastClaimIsLast(pl.zones, k);
    var z := Decide(pl, k).zone;
    e :| e in pl.egresses && e.tag == z.tag && e.mark == z.mark;
    EgressOfZone(pl.egresses, e);
  }

  lemma CompiledTunnel(p: Profile, opt: Options, e: Egress)
    requires e in CompilePlan(p, opt).egresses && KernelEgress(p, e.tag)
    ensures e.kind == Tunnel
  {
    TunnelKind(p, WithDefaults(opt), OtherTags(Built(p, WithDefaults(opt).collectDomainZones).zones), e);
  }

  lemma TunnelKind(p: Profile, o: Options, ts: seq<string>, e: Egress)
    requires e in Egresses(p, o, ts) && KernelEgress(p, e.tag)
    ensures e.kind == Tunnel
  {
    KernelIsTunnel(p, e.tag);
    var es := Egresses(p, o, ts);
    var i :| 0 <= i < |es| && es[i] == e;
    if i > 0 { assert e == EgressFor(p, o, i - 1, ts[i - 1]); }
  }

  // ---- the order differs from sing-box ----

  const HERE := Prefix(false, 0x8080808, 32)
  const PARIS := Endpoint("paris", AmneziaWG, AmneziaWGProto, Net(Prefix(false, 0x5060708, 32)), Blank, true, "1", [])
  const TOKYO := Endpoint("tokyo", AmneziaWG, AmneziaWGProto, Net(Prefix(false, 0x5060709, 32)), Blank, true, "2", [])

  function AddressRule(id: string, outbound: string): Rule {
    Rule(id, [], [], [], [], [Net(HERE)], [], [], [], [], [], false, false, outbound)
  }

  /** Two rules for one address: the first sends it to paris, the second to tokyo. */
  const RIVALS := Profile([PARIS, TOKYO], [], [AddressRule("a", "paris"), AddressRule("b", "tokyo")], [])
  const PLAIN := Options("", 0, 0, 0, 0, 0, false)

  function ToHere(): Packet { Packet(false, 0, 0x8080808, "br0", "", TCP, 0, 0, {}) }

  lemma RivalsParsed()
    ensures DroppedRule(RIVALS, RIVALS.rules[0]) && DroppedRule(RIVALS, RIVALS.rules[1])
    ensures EndpointByID(RIVALS.endpoints, "paris") == Some(PARIS)
        && EndpointByID(RIVALS.endpoints, "tokyo") == Some(TOKYO)
    ensures ParsedProfile(RIVALS)
  {
    assert EndpointByID(RIVALS.endpoints[1..], "tokyo") == Some(TOKYO);
    Pow2Zero();
  }

  lemma Pow2Zero()
    ensures Pow2(0) == 1
  {}

  lemma RivalsBuilt() returns (x: Zone, y: Zone)
    ensures Built(RIVALS, false).zones == [x, y] && x.tag == "paris" && y.tag == "tokyo"
    ensures x.name == "rule_a" && y.name == "rule_b"
    ensures CarriesExactly(RIVALS, x, "paris", [Net(HERE)]) && CarriesExactly(RIVALS, y, "tokyo", [Net(HERE)])
  {
    RivalNames();
    var one, two := AfterRules(RIVALS, false, 1), AfterRules(RIVALS, false, 2);
    assert AfterRules(RIVALS, false, 0) == Build([], {}, {});
    x := RivalStep(Build([], {}, {}), "a", "paris");
    assert one == RuleStep(RIVALS, false, Build([], {}, {}), RIVALS.rules[0]);
    assert one.zones == [x] by { assert [] + [x] == [x]; }
    y := RivalStep(one, "b", "tokyo");
    assert two == RuleStep(RIVALS, false, one, RIVALS.rules[1]);
    assert two.zones == [x, y] by { assert [x] + [y] == [x, y]; }
    assert Built(RIVALS, false) == two;
  }

  lemma RivalStep(b: Build, id: string, tag: string) returns (z: Zone)
    requires tag == "paris" || tag == "tokyo"
    requires "rule_" + NftName(id) !in b.names
    ensures var n := RuleStep(RIVALS, false, b, AddressRule(id, tag));
      n.zones == b.zones + [z] && n.names == b.names + {"rule_" + NftName(id)}
    ensures z.tag == tag && z.name == "rule_" + NftName(id) && CarriesExactly(RIVALS, z, tag, [Net(HERE)])
  {
    var name, es := "rule_" + NftName(id), [Net(HERE)];
    var n := AddZone(b, false, name, tag, KeptEntries(RIVALS, tag, es), None);
    HereKept(tag);
    AddedZone(RIVALS, b, false, name, tag, es);
    z :| CarriesExactly(RIVALS, z, tag, es) && n.zones == b.zones + [z];
    assert z == n.zones[|b.zones|];
    RivalAdds(b, id, tag);
  }

  lemma HereKept(tag: string)
    ensures WellFormed([Net(HERE)]) && Named([Net(HERE)], DstAddr(ToHere()))
    ensures Named(KeptEntries(RIVALS, tag, [Net(HERE)]), DstAddr(ToHere()))
  {
    HereNamed();
    Pow2Zero();
    KeptNamed(RIVALS, tag, [Net(HERE)]);
  }

  lemma RivalAdds(b: Build, id: string, tag: string)
    requires tag == "paris" || tag == "tokyo"
    ensures RuleStep(RIVALS, false, b, AddressRule(id, tag)) ==
      AddZone(b, false, "rule_" + NftName(id), tag, KeptEntries(RIVALS, tag, [Net(HERE)]), None)
  {
    RivalsParsed();
    HereKept(tag);
  }

  predicate Rival(z: Zone) { (z.tag == "paris" && z.name == "rule_a") || (z.tag == "tokyo" && z.name == "rule_b") }

  lemma RivalZones(pl: Plan)
    requires pl == CompilePlan(RIVALS, PLAIN)
    ensures Sorted(pl.zones, ZoneLeq) && NamesDistinct(pl.zones)
    ensures (forall z :: z in pl.zones ==> Rival(z)) && Claims(pl, "paris") && Claims(pl, "tokyo")
  {
    var x, y := RivalsBuilt();
    ListsGood(RIVALS, false, 0);
    PlanZones(RIVALS, PLAIN);
    StampedRivals(pl, [x, y], x, y);
  }

  ghost predicate Claims(pl: Plan, tag: string) {
    exists z :: z in pl.zones && z.tag == tag && ZoneMatches(z, ToHere())
  }

  lemma StampedRivals(pl: Plan, zs: seq<Zone>, x: Zone, y: Zone)
    requires zs == [x, y] && x.name == "rule_a" && y.name == "rule_b" && GoodZone(x) && GoodZone(y)
    requires CarriesExactly(RIVALS, x, "paris", [Net(HERE)]) && CarriesExactly(RIVALS, y, "tokyo", [Net(HERE)])
    requires forall z :: z in pl.zones ==> exists w :: w in zs && z == w.(mark := MarkByTag(pl.egresses, w.tag))
    requires forall w :: w in zs ==> w.(mark := MarkByTag(pl.egresses, w.tag)) in pl.zones
    ensures (forall z :: z in pl.zones ==> Rival(z)) && Claims(pl, "paris") && Claims(pl, "tokyo")
  {
    assert x in zs && y in zs;
    var xm, ym := x.(mark := MarkByTag(pl.egresses, x.tag)), y.(mark := MarkByTag(pl.egresses, y.tag));
    RivalMatches(x, "paris", xm.mark);
    RivalMatches(y, "tokyo", ym.mark);
    assert xm in pl.zones && ym in pl.zones;
  }

  lemma RivalMatches(z: Zone, tag: string, mark: Word)
    requires CarriesExactly(RIVALS, z, tag, [Net(HERE)]) && GoodZone(z)
    ensures ZoneMatches(z.(mark := mark), ToHere())
  {
    HereNamed();
    assert Covered(z.v4, DstAddr(ToHere()));
  }

  lemma RivalsNotBypassed(pl: Plan)
    requires pl == CompilePlan(RIVALS, PLAIN)
    ensures !Bypassed(pl, ToHere())
  {
    RivalServers();
    ClassifyCoversNamed(BypassEntries(RIVALS.endpoints));
  }

  lemma RivalServers()
    ensures WellFormed(BypassEntries(RIVALS.endpoints)) && !Named(BypassEntries(RIVALS.endpoints), DstAddr(ToHere()))
  {
    var es := BypassEntries(RIVALS.endpoints);
    assert es == [PARIS.server, Blank, TOKYO.server, Blank] by {
      assert RIVALS.endpoints[..1] == [PARIS] && [PARIS][..0] == [];
      assert BypassEntries([]) == [] && BypassEntries([PARIS]) == [PARIS.server, Blank];
    }
    Pow2Zero();
  }

  lemma RivalNameOrder()
    ensures StrLeq("rule_a", "rule_b") && !StrLeq("rule_b", "rule_a")
  {
    StrOrder();
    assert "rule_a" == "rule_" + "a" && "rule_b" == "rule_" + "b";
  }

  /** sing-box would take the rule listed first; the kernel takes the zone named last. */
  lemma FirstRuleLoses()
    ensures DroppedRule(RIVALS, RIVALS.rules[0]) && RIVALS.rules[0].outbound == "paris"
    ensures Named(RIVALS.rules[0].ipCidr, DstAddr(ToHere()))
    ensures var pl := CompilePlan(RIVALS, PLAIN);
      Overruled(pl, ToHere(), "paris") && !DecidesFor(pl, ToHere(), "paris") && DecidesFor(pl, ToHere(), "tokyo")
  {
    RivalsParsed();
    HereNamed();
    var pl, k := CompilePlan(RIVALS, PLAIN), ToHere();
    RivalZones(pl);
    var x :| x in pl.zones && x.tag == "paris" && ZoneMatches(x, k);
    var y :| y in pl.zones && y.tag == "tokyo" && ZoneMatches(y, k);
    RivalNameOrder();
    assert After(pl, k, "paris", y);
    RivalsNotBypassed(pl);
    DecidesForIff(pl, k, "paris", x);
    DecidesForIff(pl, k, "tokyo", y);
  }

  lemma HereNamed()
    ensures Named([Net(HERE)], DstAddr(ToHere()))
  {
    Pow2Zero();
    assert Net(HERE) in [Net(HERE)] && Contains(HERE, DstAddr(ToHere()));
  }

  lemma RivalNames()
    ensures "rule_" + NftName("a") == "rule_a" && "rule_" + NftName("b") == "rule_b"
  {
    assert NftName("") == "";
    assert "a"[1..] == "" && "b"[1..] == "";
  }
}
