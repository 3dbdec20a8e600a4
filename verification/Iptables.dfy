/**
 The iptables/ipset plane: the mangle chain `RenderIptablesScript` of
 `internal/pbr/render_ipset.go` builds for each address family, and what netfilter does
 with it. It shares the plan and the sets with the nft plane but none of its lines.
 */
module Iptables {
  import opened Cidr
  import opened Compile
  import opened Datapath
  import opened Sequences

  datatype IptMatch =
    | InIface(pattern: string)
    | MacSource(mac: string)
    | Sports(l4: L4, ports: seq<int>)
    | SetSrc(src: SetId)
    | SetDst(dst: SetId)
    | MarkIs(value: Word)

  datatype Target =
    | Return
    | RestoreMark(nfmask: Word, ctmask: Word)
    | SaveMark(nfmask: Word, ctmask: Word)
    | SetXmark(put: Word, mask: Word)

  datatype IptRule = IptRule(matches: seq<IptMatch>, target: Target)

  // ---- meaning ----

  function Xor(a: Word, b: Word): Word { (a - b) + (b - a) }

  /** iptables spells the wildcard as a trailing plus. */
  predicate PlusMatches(pattern: string, name: string) {
    if EndsWith(pattern, '+') then pattern[..|pattern| - 1] <= name else pattern == name
  }

  predicate Matches(m: IptMatch, sets: Sets, k: Packet, s: Marks) {
    match m
    case InIface(p) => PlusMatches(p, k.iif)
    case MacSource(mac) => k.mac == mac
    case Sports(l4, ports) => k.l4 == l4 && k.sport in ports
    case SetSrc(id) => InSet(sets, id, SrcAddr(k))
    case SetDst(id) => InSet(sets, id, DstAddr(k))
    case MarkIs(v) => s.mark == v
  }

  predicate AllMatch(ms: seq<IptMatch>, sets: Sets, k: Packet, s: Marks) {
    forall m :: m in ms ==> Matches(m, sets, k, s)
  }

  function Act(t: Target, s: Marks): Marks {
    match t
    case Return => s
    case RestoreMark(nf, ct) => s.(mark := Xor(s.mark - nf, s.ct * ct))
    case SaveMark(nf, ct) => s.(ct := Xor(s.ct - ct, s.mark * nf))
    case SetXmark(put, mask) => s.(mark := Xor(s.mark - mask, put))
  }

  datatype Outcome = Outcome(marks: Marks, returned: bool)

  function RunChain(rules: seq<IptRule>, sets: Sets, k: Packet, s: Marks): Outcome {
    if rules == [] then Outcome(s, false)
    else if !AllMatch(rules[0].matches, sets, k, s) then RunChain(rules[1..], sets, k, s)
    else if rules[0].target.Return? then Outcome(s, true)
    else RunChain(rules[1..], sets, k, Act(rules[0].target, s))
  }

  lemma {:induction false} RunConcat(a: seq<IptRule>, b: seq<IptRule>, sets: Sets, k: Packet, s: Marks)
    ensures RunChain(a + b, sets, k, s) ==
      var o := RunChain(a, sets, k, s); if o.returned then o else RunChain(b, sets, k, o.marks)
  {
    if a == [] {
      assert a + b == b;
    } else {
      assert (a + b)[1..] == a[1..] + b;
      RunConcat(a[1..], b, sets, k, s);
      RunConcat(a[1..], b, sets, k, Act(a[0].target, s));
    }
  }

  lemma RunOne(r: IptRule, sets: Sets, k: Packet, s: Marks)
    ensures RunChain([r], sets, k, s) ==
      if !AllMatch(r.matches, sets, k, s) then Outcome(s, false)
      else if r.target.Return? then Outcome(s, true) else Outcome(Act(r.target, s), false)
  {
    assert [r][1..] == [];
  }

  // ---- rendering: the cartesian source matches ----

  function Translate(iface: string): string {
    if EndsWith(iface, '*') then iface[..|iface| - 1] + "+" else iface
  }

  /** One alternative per interface; a blank interface adds no match at all. */
  function IfaceAlternatives(names: seq<string>): seq<seq<IptMatch>> {
    if names == [] then [[]]
    else seq(|names|, i requires 0 <= i < |names| => if names[i] == "" then [] else [InIface(Translate(names[i]))])
  }

  function MacAlternatives(macs: seq<string>): seq<seq<IptMatch>> {
    if macs == [] then [[]]
    else seq(|macs|, i requires 0 <= i < |macs| => if macs[i] == "" then [] else [MacSource(macs[i])])
  }

  function PortAlternatives(ports: seq<int>): seq<seq<IptMatch>> {
    if ports == [] then [[]] else [[Sports(TCP, ports)], [Sports(UDP, ports)]]
  }

  function Extend(x: seq<IptMatch>, b: seq<seq<IptMatch>>): seq<seq<IptMatch>> {
    if b == [] then [] else Extend(x, b[..|b| - 1]) + [x + b[|b| - 1]]
  }

  function Product(a: seq<seq<IptMatch>>, b: seq<seq<IptMatch>>): seq<seq<IptMatch>> {
    if a == [] then [] else Product(a[..|a| - 1], b) + Extend(a[|a| - 1], b)
  }

  function Combos(z: Zone): seq<seq<IptMatch>> {
    Product(Product(IfaceAlternatives(z.srcIface), MacAlternatives(z.srcMAC)), PortAlternatives(z.srcPort))
  }

  /** The innermost loop of `iptablesSourceMatchCombos`. */
  method ExtendEach(m: seq<IptMatch>, protos: seq<seq<IptMatch>>) returns (out: seq<seq<IptMatch>>)
    ensures out == Extend(m, protos)
  {
    out := [];
    for l := 0 to |protos|
      invariant out == Extend(m, protos[..l])
    {
      assert protos[..l + 1][..l] == protos[..l];
      out := out + [m + protos[l]];
    }
    assert protos[..|protos|] == protos;
  }

  /** Its loop over MACs for one interface. */
  method ExtendMacs(ifc: seq<IptMatch>, macs: seq<seq<IptMatch>>, protos: seq<seq<IptMatch>>)
    returns (out: seq<seq<IptMatch>>)
    ensures out == Product(Extend(ifc, macs), protos)
  {
    out := [];
    for j := 0 to |macs|
      invariant out == Product(Extend(ifc, macs[..j]), protos)
    {
      assert macs[..j + 1][..j] == macs[..j];
      var m := ifc + macs[j];
      var each := ExtendEach(m, protos);
      ghost var done := Extend(ifc, macs[..j]);
      assert (done + [m])[..|done|] == done;
      out := out + each;
    }
    assert macs[..|macs|] == macs;
  }

  lemma {:induction false} ProductConcat(a: seq<seq<IptMatch>>, b: seq<seq<IptMatch>>, c: seq<seq<IptMatch>>)
    ensures Product(a + b, c) == Product(a, c) + Product(b, c)
  {
    if b == [] {
      assert a + b == a;
    } else {
      var n := |b| - 1;
      ProductConcat(a, b[..n], c);
      ProductSnoc(a + b[..n], b[n], c);
      ProductSnoc(b[..n], b[n], c);
      assert a + b == a + b[..n] + [b[n]] && b == b[..n] + [b[n]];
      Concat3(Product(a, c), Product(b[..n], c), Extend(b[n], c));
    }
  }

  lemma ProductSnoc(a: seq<seq<IptMatch>>, x: seq<IptMatch>, c: seq<seq<IptMatch>>)
    ensures Product(a + [x], c) == Product(a, c) + Extend(x, c)
  {
    assert (a + [x])[..|a|] == a;
  }

  lemma NextInterface(ifaces: seq<seq<IptMatch>>, i: nat, macs: seq<seq<IptMatch>>, protos: seq<seq<IptMatch>>)
    requires i < |ifaces|
    ensures Product(Product(ifaces[..i + 1], macs), protos) ==
      Product(Product(ifaces[..i], macs), protos) + Product(Extend(ifaces[i], macs), protos)
  {
    assert ifaces[..i + 1] == ifaces[..i] + [ifaces[i]];
    ProductSnoc(ifaces[..i], ifaces[i], macs);
    ProductConcat(Product(ifaces[..i], macs), Extend(ifaces[i], macs), protos);
  }

  /** `iptablesSourceMatchCombos`: interfaces by MACs by transport protocols. */
  method SourceMatchCombos(z: Zone) returns (out: seq<seq<IptMatch>>)
    ensures out == Combos(z)
  {
    var ifaces := IfaceAlternatives(z.srcIface);
    var macs := MacAlternatives(z.srcMAC);
    var protos := PortAlternatives(z.srcPort);
    out := [];
    for i := 0 to |ifaces|
      invariant out == Product(Product(ifaces[..i], macs), protos)
    {
      NextInterface(ifaces, i, macs, protos);
      var part := ExtendMacs(ifaces[i], macs, protos);
      out := out + part;
    }
    assert ifaces[..|ifaces|] == ifaces;
  }

  // ---- rendering: the chain ----

  function WithTail(combos: seq<seq<IptMatch>>, tail: seq<IptMatch>, t: Target): seq<IptRule> {
    if combos == [] then [] else WithTail(combos[..|combos| - 1], tail, t) + [IptRule(combos[|combos| - 1] + tail, t)]
  }

  function ZoneTail(z: Zone, v6: bool): seq<IptMatch> {
    (if (if v6 then z.srcV6 else z.srcV4) != [] then [SetSrc(SrcSet(z.name, v6))] else []) +
      (if (if v6 then z.v6 else z.v4) != [] then [SetDst(DestSet(z.name, v6))] else [])
  }

  /** The source constraint can be met in this family and a destination does not rule it out. */
  predicate ScopedApplies(z: Zone, v6: bool) {
    && ((if v6 then z.srcV6 else z.srcV4) != [] || (z.srcV4 == [] && z.srcV6 == []))
    && ((if v6 then z.v6 else z.v4) != [] || !HasDest(z))
  }

  function ZoneRules(mask: Word, z: Zone, v6: bool): seq<IptRule> {
    if z.srcScoped then
      if ScopedApplies(z, v6) then WithTail(Combos(z), ZoneTail(z, v6), SetXmark(z.mark, mask)) else []
    else if (if v6 then z.v6 != [] else z.v4 != [] || z.domains != []) then
      [IptRule([SetDst(DestSet(z.name, v6))], SetXmark(z.mark, mask))]
    else []
  }

  function AllZoneRules(mask: Word, zs: seq<Zone>, v6: bool): seq<IptRule> {
    if zs == [] then [] else AllZoneRules(mask, zs[..|zs| - 1], v6) + ZoneRules(mask, zs[|zs| - 1], v6)
  }

  function Guards(pl: Plan, s86: Word, v6: bool): seq<IptRule> {
    (if (if v6 then pl.bypassV6 else pl.bypassV4) != [] then [IptRule([SetDst(BypassSet(v6))], Return)] else []) +
      (if s86 != {} then [IptRule([MarkIs(s86)], Return)] else [])
  }

  function Chain(pl: Plan, s86: Word, v6: bool): seq<IptRule> {
    Guards(pl, s86, v6) + [IptRule([], RestoreMark(pl.mask, pl.mask))] + AllZoneRules(pl.mask, pl.zones, v6) +
      [IptRule([], SaveMark(pl.mask, pl.mask))]
  }

  /** One family's `emit` of `RenderIptablesScript`, with its zone and combination loops. */
  method EmitZone(mask: Word, z: Zone, v6: bool) returns (rules: seq<IptRule>)
    ensures rules == ZoneRules(mask, z, v6)
  {
    rules := [];
    if z.srcScoped {
      if ScopedApplies(z, v6) {
        var combos := SourceMatchCombos(z);
        var tail := ZoneTail(z, v6);
        for j := 0 to |combos|
          invariant rules == WithTail(combos[..j], tail, SetXmark(z.mark, mask))
        {
          assert combos[..j + 1][..j] == combos[..j];
          rules := rules + [IptRule(combos[j] + tail, SetXmark(z.mark, mask))];
        }
        assert combos[..|combos|] == combos;
      }
    } else if (if v6 then z.v6 != [] else z.v4 != [] || z.domains != []) {
      rules := [IptRule([SetDst(DestSet(z.name, v6))], SetXmark(z.mark, mask))];
    }
  }

  method EmitChain(pl: Plan, s86: Word, v6: bool) returns (rules: seq<IptRule>)
    ensures rules == Chain(pl, s86, v6)
  {
    var zoneRules := [];
    for i := 0 to |pl.zones|
      invariant zoneRules == AllZoneRules(pl.mask, pl.zones[..i], v6)
    {
      assert pl.zones[..i + 1][..i] == pl.zones[..i];
      var one := EmitZone(pl.mask, pl.zones[i], v6);
      zoneRules := zoneRules + one;
    }
    assert pl.zones[..|pl.zones|] == pl.zones;
    rules := Guards(pl, s86, v6) + [IptRule([], RestoreMark(pl.mask, pl.mask))] + zoneRules +
      [IptRule([], SaveMark(pl.mask, pl.mask))];
  }

  /** The whole plane: no IPv6 chain exists for a plan without IPv6. */
  function Plane(pl: Plan, s86: Word, sets: Sets, k: Packet, s: Marks): Marks {
    if k.v6 && !HasV6(pl) then s else RunChain(Chain(pl, s86, k.v6), sets, k, s).marks
  }

  // ---- what the kernel takes ----

  /** The longest port list of one multiport match. */
  const MULTIPORT := 15

  predicate FewPorts(ms: seq<IptMatch>) { forall m :: m in ms && m.Sports? ==> |m.ports| <= MULTIPORT }

  predicate RulesLoad(rules: seq<IptRule>) { forall r :: r in rules ==> FewPorts(r.matches) }

  /** A `hash:net` set takes no prefix of length zero. */
  predicate SetLoads(ps: seq<Prefix>) { forall p :: p in ps ==> p.bits > 0 }

  predicate ZoneSetsLoad(z: Zone) { SetLoads(z.v4) && SetLoads(z.v6) && SetLoads(z.srcV4) && SetLoads(z.srcV6) }

  predicate SetsLoad(pl: Plan) {
    SetLoads(pl.bypassV4) && SetLoads(pl.bypassV6) && forall z :: z in pl.zones ==> ZoneSetsLoad(z)
  }

  /** Every set and every rule of the plane is accepted. */
  predicate PlaneLoads(pl: Plan, s86: Word) {
    SetsLoad(pl) && RulesLoad(Chain(pl, s86, false)) && (HasV6(pl) ==> RulesLoad(Chain(pl, s86, true)))
  }

  /** A scoped zone with rules in a family and more source ports than one match holds. */
  predicate ManyPorts(z: Zone, v6: bool) { z.srcScoped && ScopedApplies(z, v6) && |z.srcPort| > 15 }

  predicate HasZero(ps: seq<Prefix>) { exists q :: q in ps && q.bits == 0 }

  /** Some address list of the plan holds a prefix of length zero. */
  predicate HoldsAll(pl: Plan) {
    || HasZero(pl.bypassV4) || HasZero(pl.bypassV6)
    || exists z :: z in pl.zones && (HasZero(z.v4) || HasZero(z.v6) || HasZero(z.srcV4) || HasZero(z.srcV6))
  }

  lemma SetsLoadIff(pl: Plan)
    ensures SetsLoad(pl) <==> !HoldsAll(pl)
  {
    forall ps ensures SetLoads(ps) <==> !HasZero(ps) { SetLoadsIff(ps); }
  }

  lemma SetLoadsIff(ps: seq<Prefix>)
    ensures SetLoads(ps) <==> !HasZero(ps)
  {}

  lemma {:induction false} ExtendHas(x: seq<IptMatch>, b: seq<seq<IptMatch>>, y: seq<IptMatch>)
    requires y in b
    ensures x + y in Extend(x, b)
  {
    var n := |b| - 1;
    if y != b[n] {
      assert b == b[..n] + [b[n]];
      ExtendHas(x, b[..n], y);
    }
  }

  lemma {:induction false} ProductHas(a: seq<seq<IptMatch>>, b: seq<seq<IptMatch>>, x: seq<IptMatch>, y: seq<IptMatch>)
    requires x in a && y in b
    ensures x + y in Product(a, b)
  {
    var n := |a| - 1;
    if x == a[n] {
      ExtendHas(x, b, y);
    } else {
      assert a == a[..n] + [a[n]];
      ProductHas(a[..n], b, x, y);
    }
  }

  /** Every port match holds this list. */
  predicate PortsAre(ms: seq<IptMatch>, ports: seq<int>) { forall m :: m in ms && m.Sports? ==> m.ports == ports }

  lemma {:induction false} ExtendPorts(x: seq<IptMatch>, b: seq<seq<IptMatch>>, ports: seq<int>)
    requires PortsAre(x, ports) && forall y :: y in b ==> PortsAre(y, ports)
    ensures forall y :: y in Extend(x, b) ==> PortsAre(y, ports)
  {
    if b != [] {
      var n := |b| - 1;
      assert b[n] in b;
      ExtendPorts(x, b[..n], ports);
    }
  }

  lemma {:induction false} ProductPorts(a: seq<seq<IptMatch>>, b: seq<seq<IptMatch>>, ports: seq<int>)
    requires (forall x :: x in a ==> PortsAre(x, ports)) && forall y :: y in b ==> PortsAre(y, ports)
    ensures forall y :: y in Product(a, b) ==> PortsAre(y, ports)
  {
    if a != [] {
      var n := |a| - 1;
      assert a[n] in a;
      ProductPorts(a[..n], b, ports);
      ExtendPorts(a[n], b, ports);
    }
  }

  lemma CombosPorts(z: Zone)
    ensures forall c :: c in Combos(z) ==> PortsAre(c, z.srcPort)
    ensures z.srcPort != [] ==> exists c :: c in Combos(z) && Sports(TCP, z.srcPort) in c
  {
    var ia, ma, pa := IfaceAlternatives(z.srcIface), MacAlternatives(z.srcMAC), PortAlternatives(z.srcPort);
    ProductPorts(ia, ma, z.srcPort);
    ProductPorts(Product(ia, ma), pa, z.srcPort);
    assert ia[0] in ia && ma[0] in ma && pa[0] in pa;
    ProductHas(ia, ma, ia[0], ma[0]);
    ProductHas(Product(ia, ma), pa, ia[0] + ma[0], pa[0]);
  }

  lemma {:induction false} TailLoads(cs: seq<seq<IptMatch>>, tail: seq<IptMatch>, t: Target)
    requires forall m :: m in tail ==> !m.Sports?
    ensures RulesLoad(WithTail(cs, tail, t)) <==> forall c :: c in cs ==> FewPorts(c)
  {
    if cs != [] {
      var n := |cs| - 1;
      assert cs == cs[..n] + [cs[n]];
      TailLoads(cs[..n], tail, t);
      LoadsConcat(WithTail(cs[..n], tail, t), [IptRule(cs[n] + tail, t)]);
      OneLoads(cs[n], tail, t);
    }
  }

  lemma OneLoads(c: seq<IptMatch>, tail: seq<IptMatch>, t: Target)
    requires forall m :: m in tail ==> !m.Sports?
    ensures RulesLoad([IptRule(c + tail, t)]) <==> FewPorts(c)
  {
    var r := IptRule(c + tail, t);
    assert r in [r];
    forall m | m in c ensures m in r.matches {}
  }

  lemma LoadsConcat(a: seq<IptRule>, b: seq<IptRule>)
    ensures RulesLoad(a + b) <==> RulesLoad(a) && RulesLoad(b)
  {
    forall r | r in a || r in b ensures r in a + b {}
  }

  lemma ZoneRulesLoad(mask: Word, z: Zone, v6: bool)
    ensures RulesLoad(ZoneRules(mask, z, v6)) <==> !ManyPorts(z, v6)
  {
    if z.srcScoped && ScopedApplies(z, v6) {
      TailLoads(Combos(z), ZoneTail(z, v6), SetXmark(z.mark, mask));
      CombosPorts(z);
      if |z.srcPort| > MULTIPORT {
        var c :| c in Combos(z) && Sports(TCP, z.srcPort) in c;
        assert !FewPorts(c);
      }
    }
  }

  lemma {:induction false} AllRulesLoad(mask: Word, zs: seq<Zone>, v6: bool)
    ensures RulesLoad(AllZoneRules(mask, zs, v6)) <==> forall z :: z in zs ==> !ManyPorts(z, v6)
  {
    if zs != [] {
      var n := |zs| - 1;
      assert zs == zs[..n] + [zs[n]];
      AllRulesLoad(mask, zs[..n], v6);
      ZoneRulesLoad(mask, zs[n], v6);
      LoadsConcat(AllZoneRules(mask, zs[..n], v6), ZoneRules(mask, zs[n], v6));
    }
  }

  lemma ChainLoads(pl: Plan, s86: Word, v6: bool)
    ensures RulesLoad(Chain(pl, s86, v6)) <==> forall z :: z in pl.zones ==> !ManyPorts(z, v6)
  {
    var head := Guards(pl, s86, v6) + [IptRule([], RestoreMark(pl.mask, pl.mask))];
    var save := [IptRule([], SaveMark(pl.mask, pl.mask))];
    LoadsConcat(head + AllZoneRules(pl.mask, pl.zones, v6), save);
    LoadsConcat(head, AllZoneRules(pl.mask, pl.zones, v6));
    AllRulesLoad(pl.mask, pl.zones, v6);
  }

  /**
   The plane loads exactly when no set holds a prefix of length zero and no scoped zone that
   applies in an installed family has more than fifteen source ports.
   */
  lemma PlaneLoadsIff(pl: Plan, s86: Word)
    ensures PlaneLoads(pl, s86) <==>
      !HoldsAll(pl) && forall z :: z in pl.zones ==> !ManyPorts(z, false) && (HasV6(pl) ==> !ManyPorts(z, true))
  {
    SetsLoadIff(pl);
    ChainLoads(pl, s86, false);
    ChainLoads(pl, s86, true);
  }

  // ---- what the chain computes ----

  lemma AllMatchConcat(a: seq<IptMatch>, b: seq<IptMatch>, sets: Sets, k: Packet, s: Marks)
    ensures AllMatch(a + b, sets, k, s) <==> AllMatch(a, sets, k, s) && AllMatch(b, sets, k, s)
  {
    forall m | m in a ensures m in a + b {}
    forall m | m in b ensures m in a + b {}
  }

  ghost predicate AnyOf(xs: seq<seq<IptMatch>>, sets: Sets, k: Packet, s: Marks) {
    exists x :: x in xs && AllMatch(x, sets, k, s)
  }

  lemma {:induction false} ExtendAny(x: seq<IptMatch>, b: seq<seq<IptMatch>>, sets: Sets, k: Packet, s: Marks)
    ensures AnyOf(Extend(x, b), sets, k, s) <==> AllMatch(x, sets, k, s) && AnyOf(b, sets, k, s)
  {
    if b != [] {
      var n := |b| - 1;
      ExtendAny(x, b[..n], sets, k, s);
      AllMatchConcat(x, b[n], sets, k, s);
      AnyAppend(Extend(x, b[..n]), x + b[n], sets, k, s);
      AnyAppend(b[..n], b[n], sets, k, s);
      assert b == b[..n] + [b[n]];
    }
  }

  lemma AnyAppend(xs: seq<seq<IptMatch>>, x: seq<IptMatch>, sets: Sets, k: Packet, s: Marks)
    ensures AnyOf(xs + [x], sets, k, s) <==> AnyOf(xs, sets, k, s) || AllMatch(x, sets, k, s)
  {
    assert x in xs + [x];
    forall y | y in xs ensures y in xs + [x] {}
  }

  lemma AnyConcat(a: seq<seq<IptMatch>>, b: seq<seq<IptMatch>>, sets: Sets, k: Packet, s: Marks)
    ensures AnyOf(a + b, sets, k, s) <==> AnyOf(a, sets, k, s) || AnyOf(b, sets, k, s)
  {
    forall y | y in a ensures y in a + b {}
    forall y | y in b ensures y in a + b {}
  }

  lemma {:induction false} ProductAny(a: seq<seq<IptMatch>>, b: seq<seq<IptMatch>>, sets: Sets, k: Packet, s: Marks)
    ensures AnyOf(Product(a, b), sets, k, s) <==> AnyOf(a, sets, k, s) && AnyOf(b, sets, k, s)
  {
    if a != [] {
      var n := |a| - 1;
      ProductAny(a[..n], b, sets, k, s);
      ExtendAny(a[n], b, sets, k, s);
      AnyConcat(Product(a[..n], b), Extend(a[n], b), sets, k, s);
      AnyAppend(a[..n], a[n], sets, k, s);
      assert a == a[..n] + [a[n]];
    }
  }

  /** No interface ends in iptables' own wildcard; validation refuses the character. */
  predicate NoPlus(z: Zone) { forall n :: n in z.srcIface ==> !EndsWith(n, '+') }

  /** No blank interface or MAC entry either. */
  predicate CleanSource(z: Zone) { NoPlus(z) && "" !in z.srcIface && "" !in z.srcMAC }

  /** What this plane makes of a zone: a blank entry drops its whole condition. */
  function Loose(z: Zone): Zone {
    z.(srcIface := if "" in z.srcIface then [] else z.srcIface, srcMAC := if "" in z.srcMAC then [] else z.srcMAC)
  }

  function LooseZones(zs: seq<Zone>): seq<Zone> { seq(|zs|, i requires 0 <= i < |zs| => Loose(zs[i])) }

  function LoosePlan(pl: Plan): Plan { pl.(zones := LooseZones(pl.zones)) }

  lemma TranslateMatches(n: string, name: string)
    requires !EndsWith(n, '+')
    ensures PlusMatches(Translate(n), name) <==> IfaceMatches(n, name)
  {
    if EndsWith(n, '*') { assert Translate(n)[..|n| - 1] == n[..|n| - 1]; }
  }

  /** A blank entry makes an alternative without any condition. */
  lemma BlankAlternative(names: seq<string>, macs: seq<string>, sets: Sets, k: Packet, s: Marks)
    ensures "" in names ==> AnyOf(IfaceAlternatives(names), sets, k, s)
    ensures "" in macs ==> AnyOf(MacAlternatives(macs), sets, k, s)
  {
    if "" in names {
      var i :| 0 <= i < |names| && names[i] == "";
      assert IfaceAlternatives(names)[i] == [];
      assert [] in IfaceAlternatives(names);
    }
    if "" in macs {
      var i :| 0 <= i < |macs| && macs[i] == "";
      assert MacAlternatives(macs)[i] == [];
      assert [] in MacAlternatives(macs);
    }
  }

  lemma IfaceAny(names: seq<string>, z: Zone, sets: Sets, k: Packet, s: Marks)
    requires names == z.srcIface && NoPlus(z)
    ensures AnyOf(IfaceAlternatives(names), sets, k, s) <==> IfaceOk(Loose(z), k)
  {
    var alts := IfaceAlternatives(names);
    if names == [] {
      assert [] in alts;
    } else if "" in names {
      BlankAlternative(names, [], sets, k, s);
    } else {
      forall i | 0 <= i < |names| ensures AllMatch(alts[i], sets, k, s) <==> IfaceMatches(names[i], k.iif) {
        assert names[i] in names;
        TranslateMatches(names[i], k.iif);
        assert alts[i][0] in alts[i];
      }
      if IfaceOk(z, k) {
        var n :| n in names && IfaceMatches(n, k.iif);
        var i :| 0 <= i < |names| && names[i] == n;
        assert alts[i] in alts;
      }
    }
  }

  lemma MacAny(z: Zone, sets: Sets, k: Packet, s: Marks)
    ensures AnyOf(MacAlternatives(z.srcMAC), sets, k, s) <==> MacOk(Loose(z), k)
  {
    var alts := MacAlternatives(z.srcMAC);
    if z.srcMAC == [] {
      assert [] in alts;
    } else if "" in z.srcMAC {
      BlankAlternative([], z.srcMAC, sets, k, s);
    } else {
      forall i | 0 <= i < |z.srcMAC| ensures AllMatch(alts[i], sets, k, s) <==> k.mac == z.srcMAC[i] {
        assert z.srcMAC[i] in z.srcMAC;
        assert alts[i][0] in alts[i];
      }
      if MacOk(z, k) {
        var i :| 0 <= i < |z.srcMAC| && z.srcMAC[i] == k.mac;
        assert alts[i] in alts;
      }
    }
  }

  lemma PortAny(z: Zone, sets: Sets, k: Packet, s: Marks)
    ensures AnyOf(PortAlternatives(z.srcPort), sets, k, s) <==> PortOk(z, k)
  {
    var alts := PortAlternatives(z.srcPort);
    if z.srcPort == [] {
      assert [] in alts;
    } else {
      assert alts[0] in alts && alts[1] in alts;
      assert alts[0][0] in alts[0] && alts[1][0] in alts[1];
    }
  }

  /** The expanded combinations accept exactly the packets the source matchers accept, less blank conditions. */
  lemma CombosAny(z: Zone, sets: Sets, k: Packet, s: Marks)
    requires NoPlus(z)
    ensures AnyOf(Combos(z), sets, k, s) <==> IfaceOk(Loose(z), k) && MacOk(Loose(z), k) && PortOk(z, k)
  {
    ProductAny(Product(IfaceAlternatives(z.srcIface), MacAlternatives(z.srcMAC)), PortAlternatives(z.srcPort),
               sets, k, s);
    ProductAny(IfaceAlternatives(z.srcIface), MacAlternatives(z.srcMAC), sets, k, s);
    IfaceAny(z.srcIface, z, sets, k, s);
    MacAny(z, sets, k, s);
    PortAny(z, sets, k, s);
  }

  /** Matches that look at the packet, not at its current mark. */
  predicate MarkFree(ms: seq<IptMatch>) { forall m :: m in ms ==> !m.MarkIs? }

  lemma MarkFreeStable(ms: seq<IptMatch>, sets: Sets, k: Packet, s: Marks, t: Marks)
    requires MarkFree(ms)
    ensures AllMatch(ms, sets, k, s) <==> AllMatch(ms, sets, k, t)
  {
    forall m | m in ms ensures Matches(m, sets, k, s) <==> Matches(m, sets, k, t) {}
  }

  lemma XorOwned(mask: Word, put: Word, w: Word)
    requires put <= mask
    ensures Xor(w - mask, put) == (w - mask) + put
    ensures Xor(Xor(w - mask, put) - mask, put) == Xor(w - mask, put)
  {}

  /** Many rules with one tail and one mark act like one rule with alternatives. */
  lemma {:induction false} WithTailRun(cs: seq<seq<IptMatch>>, tail: seq<IptMatch>, put: Word, mask: Word, sets: Sets,
        k: Packet, s: Marks)
    requires put <= mask && MarkFree(tail) && forall c :: c in cs ==> MarkFree(c)
    ensures RunChain(WithTail(cs, tail, SetXmark(put, mask)), sets, k, s) ==
      Outcome(
        if AnyOf(cs, sets, k, s) && AllMatch(tail, sets, k, s) then s.(mark := (s.mark - mask) + put) else s,
        false)
  {
    if cs != [] {
      var n := |cs| - 1;
      assert cs == cs[..n] + [cs[n]];
      WithTailRun(cs[..n], tail, put, mask, sets, k, s);
      var r := IptRule(cs[n] + tail, SetXmark(put, mask));
      var mid := RunChain(WithTail(cs[..n], tail, SetXmark(put, mask)), sets, k, s).marks;
      RunConcat(WithTail(cs[..n], tail, SetXmark(put, mask)), [r], sets, k, s);
      RunOne(r, sets, k, mid);
      AllMatchConcat(cs[n], tail, sets, k, mid);
      MarkFreeStable(cs[n], sets, k, s, mid);
      MarkFreeStable(tail, sets, k, s, mid);
      AnyAppend(cs[..n], cs[n], sets, k, s);
      XorOwned(mask, put, s.mark);
    }
  }

  lemma {:induction false} ExtendMarkFree(x: seq<IptMatch>, b: seq<seq<IptMatch>>)
    requires MarkFree(x) && forall y :: y in b ==> MarkFree(y)
    ensures forall y :: y in Extend(x, b) ==> MarkFree(y)
  {
    if b != [] {
      var n := |b| - 1;
      assert b[n] in b;
      ExtendMarkFree(x, b[..n]);
    }
  }

  lemma {:induction false} ProductMarkFree(a: seq<seq<IptMatch>>, b: seq<seq<IptMatch>>)
    requires (forall x :: x in a ==> MarkFree(x)) && forall y :: y in b ==> MarkFree(y)
    ensures forall y :: y in Product(a, b) ==> MarkFree(y)
  {
    if a != [] {
      var n := |a| - 1;
      assert a[n] in a;
      ProductMarkFree(a[..n], b);
      ExtendMarkFree(a[n], b);
    }
  }

  lemma CombosMarkFree(z: Zone)
    ensures forall c :: c in Combos(z) ==> MarkFree(c)
  {
    ProductMarkFree(IfaceAlternatives(z.srcIface), MacAlternatives(z.srcMAC));
    ProductMarkFree(Product(IfaceAlternatives(z.srcIface), MacAlternatives(z.srcMAC)), PortAlternatives(z.srcPort));
  }

  lemma TailMatch(z: Zone, sets: Sets, k: Packet, s: Marks)
    requires SetsOf(sets, z) && ScopedApplies(z, k.v6) && z.srcScoped
    ensures MarkFree(ZoneTail(z, k.v6))
    ensures AllMatch(ZoneTail(z, k.v6), sets, k, s) <==> SourceAddressOk(z, k) && DestOk(z, k)
  {
    var tail := ZoneTail(z, k.v6);
    if (if k.v6 then z.srcV6 else z.srcV4) != [] { assert SetSrc(SrcSet(z.name, k.v6)) in tail; }
    if (if k.v6 then z.v6 else z.v4) != [] { assert SetDst(DestSet(z.name, k.v6)) in tail; }
  }

  lemma NotApplicable(z: Zone, k: Packet)
    requires z.srcScoped && !ScopedApplies(z, k.v6)
    ensures !ZoneMatches(Loose(z), k)
  {}

  /** Each zone's rules put the zone's mark on exactly the packets the loosened zone claims. */
  lemma ZoneRulesMark(mask: Word, z: Zone, sets: Sets, k: Packet, s: Marks)
    requires GoodZone(z) && z.domains == [] && NoPlus(z) && SetsOf(sets, z) && z.mark <= mask
    ensures RunChain(ZoneRules(mask, z, k.v6), sets, k, s) ==
      Outcome(if ZoneMatches(Loose(z), k) then s.(mark := (s.mark - mask) + z.mark) else s, false)
  {
    if z.srcScoped {
      if ScopedApplies(z, k.v6) {
        CombosAny(z, sets, k, s);
        CombosMarkFree(z);
        TailMatch(z, sets, k, s);
        WithTailRun(Combos(z), ZoneTail(z, k.v6), z.mark, mask, sets, k, s);
      } else {
        NotApplicable(z, k);
      }
    } else if ZoneRules(mask, z, k.v6) != [] {
      var r := IptRule([SetDst(DestSet(z.name, k.v6))], SetXmark(z.mark, mask));
      assert r.matches[0] in r.matches;
      RunOne(r, sets, k, s);
      XorOwned(mask, z.mark, s.mark);
    }
  }

  lemma {:induction false} ZonesMark(pl: Plan, n: nat, k: Packet, s: Marks)
    requires n <= |pl.zones| && GoodPlan(pl) && NoDomains(pl) && NoPluses(pl)
    ensures RunChain(AllZoneRules(pl.mask, pl.zones[..n], k.v6), DeclaredSets(pl), k, s) ==
      Outcome(Stamped(pl.mask, LastClaim(LooseZones(pl.zones[..n]), k), s), false)
  {
    if n > 0 {
      var z, before := pl.zones[n - 1], pl.zones[..n - 1];
      ZonesMark(pl, n - 1, k, s);
      LooseMark(pl, n - 1, k);
      ZoneThen(pl, z, AllZoneRules(pl.mask, before, k.v6), LastClaim(LooseZones(before), k), k, s);
      ZoneSnoc(pl.mask, pl.zones, n, k);
    }
  }

  /** A zone's rules after others that left some claim. */
  lemma ZoneThen(pl: Plan, z: Zone, a: seq<IptRule>, d: Decision, k: Packet, s: Marks)
    requires GoodPlan(pl) && NoDomains(pl) && NoPluses(pl) && z in pl.zones && (d.Claimed? ==> d.zone.mark <= pl.mask)
    requires RunChain(a, DeclaredSets(pl), k, s) == Outcome(Stamped(pl.mask, d, s), false)
    ensures RunChain(a + ZoneRules(pl.mask, z, k.v6), DeclaredSets(pl), k, s) ==
      Outcome(Stamped(pl.mask, if ZoneMatches(Loose(z), k) then Claimed(Loose(z)) else d, s), false)
  {
    RunConcat(a, ZoneRules(pl.mask, z, k.v6), DeclaredSets(pl), k, s);
    ZoneStamps(pl, z, k, Stamped(pl.mask, d, s));
    StampTwice(pl.mask, d, Loose(z), s);
  }

  /** One zone more, on either side. */
  lemma ZoneSnoc(mask: Word, zs: seq<Zone>, n: nat, k: Packet)
    requires 0 < n <= |zs|
    ensures AllZoneRules(mask, zs[..n], k.v6) ==
      AllZoneRules(mask, zs[..n - 1], k.v6) + ZoneRules(mask, zs[n - 1], k.v6)
    ensures LastClaim(LooseZones(zs[..n]), k) ==
      if ZoneMatches(Loose(zs[n - 1]), k) then Claimed(Loose(zs[n - 1])) else LastClaim(LooseZones(zs[..n - 1]), k)
  {
    assert zs[..n][..n - 1] == zs[..n - 1];
    assert LooseZones(zs[..n])[..n - 1] == LooseZones(zs[..n - 1]);
  }

  lemma ZoneStamps(pl: Plan, z: Zone, k: Packet, s: Marks)
    requires GoodPlan(pl) && NoDomains(pl) && NoPluses(pl) && z in pl.zones
    ensures RunChain(ZoneRules(pl.mask, z, k.v6), DeclaredSets(pl), k, s) ==
      Outcome(if ZoneMatches(Loose(z), k) then Stamped(pl.mask, Claimed(Loose(z)), s) else s, false)
  {
    PlanSets(pl, z);
    ZoneRulesMark(pl.mask, z, DeclaredSets(pl), k, s);
  }

  lemma LooseMark(pl: Plan, n: nat, k: Packet)
    requires n <= |pl.zones| && GoodPlan(pl)
    ensures var d := LastClaim(LooseZones(pl.zones[..n]), k); d.Claimed? ==> d.zone.mark <= pl.mask
  {
    var zs := LooseZones(pl.zones[..n]);
    LastClaimIsLast(zs, k);
    var d := LastClaim(zs, k);
    if d.Claimed? {
      var i :| 0 <= i < |zs| && zs[i] == d.zone;
      assert pl.zones[i] in pl.zones;
    }
  }

  predicate NoPluses(pl: Plan) { forall z :: z in pl.zones ==> NoPlus(z) }

  predicate CleanSources(pl: Plan) { forall z :: z in pl.zones ==> CleanSource(z) }

  lemma CleanIsLoose(pl: Plan)
    requires CleanSources(pl)
    ensures NoPluses(pl) && LoosePlan(pl) == pl
  {
    forall i | 0 <= i < |pl.zones| ensures Loose(pl.zones[i]) == pl.zones[i] { assert pl.zones[i] in pl.zones; }
    assert LooseZones(pl.zones) == pl.zones;
  }

  lemma LooseHasV6(pl: Plan)
    ensures HasV6(LoosePlan(pl)) <==> HasV6(pl)
  {
    var zs := LooseZones(pl.zones);
    if HasV6Zone(pl.zones) {
      var z :| z in pl.zones && (z.v6 != [] || z.srcV6 != []
          || (z.srcScoped && !HasDest(z) && z.srcV4 == [] && z.srcV6 == []));
      var i :| 0 <= i < |pl.zones| && pl.zones[i] == z;
      assert zs[i] == Loose(z) && zs[i] in zs;
    }
    if HasV6Zone(zs) {
      var z :| z in zs && (z.v6 != [] || z.srcV6 != []
          || (z.srcScoped && !HasDest(z) && z.srcV4 == [] && z.srcV6 == []));
      var i :| 0 <= i < |zs| && zs[i] == z;
      assert pl.zones[i] in pl.zones;
    }
  }

  /** What one packet of any flow gets, for any contents of the sets. */
  lemma ChainRun(pl: Plan, s86: Word, v6: bool, sets: Sets, k: Packet, s: Marks)
    requires k.v6 == v6
    ensures var restored := s.(mark := Xor(s.mark - pl.mask, s.ct * pl.mask));
      var zoned := RunChain(AllZoneRules(pl.mask, pl.zones, v6), sets, k, restored);
      RunChain(Chain(pl, s86, v6), sets, k, s).marks ==
        if (if v6 then pl.bypassV6 else pl.bypassV4) != [] && InSet(sets, BypassSet(v6), DstAddr(k)) then s
        else if s86 != {} && s.mark == s86 then s
        else if zoned.returned then zoned.marks
        else Act(SaveMark(pl.mask, pl.mask), zoned.marks)
  {
    var guards := Guards(pl, s86, v6);
    var restore, save := IptRule([], RestoreMark(pl.mask, pl.mask)), IptRule([], SaveMark(pl.mask, pl.mask));
    var zones := AllZoneRules(pl.mask, pl.zones, v6);
    GuardsRun(pl, s86, v6, sets, k, s);
    RunConcat(guards + [restore] + zones, [save], sets, k, s);
    RunConcat(guards + [restore], zones, sets, k, s);
    RunConcat(guards, [restore], sets, k, s);
    RunOne(restore, sets, k, s);
    var zoned := RunChain(zones, sets, k, Act(restore.target, s));
    RunOne(save, sets, k, zoned.marks);
  }

  lemma GuardsRun(pl: Plan, s86: Word, v6: bool, sets: Sets, k: Packet, s: Marks)
    requires k.v6 == v6
    ensures RunChain(Guards(pl, s86, v6), sets, k, s) ==
      Outcome(
        s,
        || ((if v6 then pl.bypassV6 else pl.bypassV4) != [] && InSet(sets, BypassSet(v6), DstAddr(k)))
        || (s86 != {} && s.mark == s86))
  {
    var bypass, guard := IptRule([SetDst(BypassSet(v6))], Return), IptRule([MarkIs(s86)], Return);
    assert bypass.matches[0] in bypass.matches && guard.matches[0] in guard.matches;
    RunOne(bypass, sets, k, s);
    RunOne(guard, sets, k, s);
    RunConcat([bypass], [guard], sets, k, s);
    assert [bypass] + [] == [bypass] && [] + [guard] == [guard];
    assert s86 == {} ==> RunChain([bypass] + [], sets, k, s) == RunChain([bypass], sets, k, s);
  }

  /** Refinement on a fresh flow, for either family: the decision of the loosened plan. */
  lemma FreshPlane(pl: Plan, s86: Word, k: Packet, ct: Word)
    requires GoodPlan(pl) && NoDomains(pl) && NoPluses(pl)
    requires Fresh(pl, k.mark) && Fresh(pl, ct) && (s86 == {} || k.mark != s86)
    ensures var m := Plane(pl, s86, DeclaredSets(pl), k, Marks(k.mark, ct));
      && m.mark * pl.mask == (match Decide(LoosePlan(pl), k) case Main => {} case Claimed(z) => z.mark)
      && m.mark - pl.mask == k.mark - pl.mask
      && m.ct - pl.mask == ct - pl.mask && m.ct * pl.mask == m.mark * pl.mask
  {
    var s := Marks(k.mark, ct);
    var d := Decide(LoosePlan(pl), k);
    PlaneDecides(pl, s86, k, s);
    LooseMark(pl, |pl.zones|, k);
    assert pl.zones[..|pl.zones|] == pl.zones;
    if d.Claimed? { SaveOwned(pl.mask, s, d.zone.mark); }
  }

  lemma PlaneDecides(pl: Plan, s86: Word, k: Packet, s: Marks)
    requires GoodPlan(pl) && NoDomains(pl) && NoPluses(pl)
    requires s.mark == k.mark && Fresh(pl, s.mark) && Fresh(pl, s.ct) && (s86 == {} || s.mark != s86)
    ensures Plane(pl, s86, DeclaredSets(pl), k, s) ==
      match Decide(LoosePlan(pl), k)
      case Main => s
      case Claimed(z) => Act(SaveMark(pl.mask, pl.mask), s.(mark := (s.mark - pl.mask) + z.mark))
  {
    if k.v6 && !HasV6(pl) {
      LastClaimIsLast(LooseZones(pl.zones), k);
      LooseHasV6(pl);
      NoV6NoClaim(LoosePlan(pl), k);
    } else {
      RunDecides(pl, s86, k, s);
      SaveFresh(pl.mask, s);
    }
  }

  lemma SaveFresh(mask: Word, s: Marks)
    requires s.mark * mask == {} && s.ct * mask == {}
    ensures Act(SaveMark(mask, mask), s) == s
  {
    forall b | b in s.ct ensures b !in mask { assert b !in s.ct * mask; }
    forall b | b in s.mark ensures b !in mask { assert b !in s.mark * mask; }
  }

  /** A fresh flow's marks: untouched when bypassed, else stamped by the last claim and saved. */
  lemma RunDecides(pl: Plan, s86: Word, k: Packet, s: Marks)
    requires GoodPlan(pl) && NoDomains(pl) && NoPluses(pl)
    requires s.mark == k.mark && Fresh(pl, s.mark) && Fresh(pl, s.ct) && (s86 == {} || s.mark != s86)
    ensures RunChain(Chain(pl, s86, k.v6), DeclaredSets(pl), k, s).marks ==
      if Bypassed(pl, k) then s
      else Act(SaveMark(pl.mask, pl.mask), Stamped(pl.mask, LastClaim(LooseZones(pl.zones), k), s))
  {
    CoveredNonEmpty(if k.v6 then pl.bypassV6 else pl.bypassV4, DstAddr(k));
    ChainRun(pl, s86, k.v6, DeclaredSets(pl), k, s);
    assert Xor(s.mark - pl.mask, s.ct * pl.mask) == s.mark;
    ZonesMark(pl, |pl.zones|, k, s);
    assert pl.zones[..|pl.zones|] == pl.zones;
  }

  lemma SaveOwned(mask: Word, s: Marks, put: Word)
    requires put <= mask && s.ct * mask == {}
    ensures var m := Act(SaveMark(mask, mask), s.(mark := (s.mark - mask) + put));
      && m.mark * mask == put && m.mark - mask == s.mark - mask
      && m.ct - mask == s.ct - mask && m.ct * mask == put
  {}
}
